/** When each finding is reported, with which confidence and on which evidence: read off the statuses
    and the evidence of the observations that inference consults. */
module FindingsExact {
  import opened Model
  import opened Selectors
  import opened Fast
  import opened Infer
  import opened InferFacts

  // ---------------------------------------------------------------------------------------
  // The vocabulary: statuses and evidence

  ghost predicate Went(o: Option<Observation>, statuses: set<Status>) {
    o.Some? && o.value.status in statuses
  }

  ghost predicate Shows(o: Observation, kind: EvidenceKind) {
    exists e :: e in o.evidence && e.kind == kind
  }

  /** The first evidence of the kind has this value. */
  ghost predicate ShowsValue(o: Observation, kind: EvidenceKind, key: string, v: Value) {
    exists i: nat :: FirstAt(o.evidence, kind, i) && key in o.evidence[i].values && o.evidence[i].values[key] == v
  }

  /** Tried in vain: neither passed nor skipped. */
  const IN_VAIN := {NoStatus, Fail, Timeout, Unknown}

  /** IPv4 worked on the layer and IPv6 did not. */
  ghost predicate Splits(obs: seq<Observation>, layer: Layer) {
    Went(Pick(obs, layer, IPv4), {Pass}) && Went(Pick(obs, layer, IPv6), {Fail, Timeout})
  }

  /** The first of TCP, TLS and QUIC to split. */
  ghost predicate SplitsFirst(obs: seq<Observation>, layer: Layer) {
    && Splits(obs, layer)
    && match layer
       case LayerTCP => true
       case LayerTLS => !Splits(obs, LayerTCP)
       case LayerQUIC => !Splits(obs, LayerTCP) && !Splits(obs, LayerTLS)
       case _ => false
  }

  /** TCP works on the family and TLS does not. */
  ghost predicate Breaks(obs: seq<Observation>, f: Family) {
    && (f == IPv4 || f == IPv6)
    && Went(Pick(obs, LayerTCP, f), {Pass}) && Went(Pick(obs, LayerTLS, f), IN_VAIN)
  }

  /** The server answered, with 400 or more. */
  ghost predicate Refuses(o: Observation) {
    o.status == Fail && exists n :: n >= 400 && ShowsValue(o, KindHTTPStatus, "status", Number(n))
  }

  ghost predicate RefusesOn(obs: seq<Observation>, f: Family) {
    (f == IPv4 || f == IPv6) && Pick(obs, LayerHTTP, f).Some? && Refuses(Pick(obs, LayerHTTP, f).value)
  }

  /** Some addresses passed and others did not. */
  ghost predicate Differs(o: Observation) {
    exists a, b :: a in o.addresses && b in o.addresses && a.status == Pass && b.status != Pass
  }

  ghost predicate DiffersFor(o: Observation, a: AddressOutcome) {
    Differs(o) && a in o.addresses && a.status == Fail
  }

  ghost predicate Resolves(obs: seq<Observation>) {
    var dns := Pick(obs, LayerDNS, NoFamily);
    dns.None? || dns.value.status == Pass
  }

  /** Some TCP connect was made in vain and none passed. */
  ghost predicate Unreachable(obs: seq<Observation>) {
    && (exists o :: o in obs && o.layer == LayerTCP && o.status in {NoStatus, Fail, Timeout})
    && forall o :: o in obs && o.layer == LayerTCP ==> o.status != Pass
  }

  ghost predicate Connects(obs: seq<Observation>) { Resolves(obs) && !Unreachable(obs) }

  ghost predicate ThreePass(obs: seq<Observation>) {
    exists i, j, k :: 0 <= i < j < k < |obs| && obs[i].status == Pass && obs[j].status == Pass && obs[k].status == Pass
  }

  /** Nothing is held against the path. That is less than "everything passed": failed TCP is only
      held against it when it is IPv6 and IPv4 passed; failed TLS when its family's TCP passed, or
      when it is IPv6 and IPv4's TLS passed; HTTP only when the server answered with an error; and a
      skipped observation never. */
  ghost predicate NothingWrong(obs: seq<Observation>) {
    && (forall layer :: layer in [LayerTCP, LayerTLS, LayerQUIC] ==> !Splits(obs, layer))
    && (forall f :: !Breaks(obs, f)) && (forall f :: !RefusesOn(obs, f))
    && !Went(Pick(obs, LayerUDP, NoFamily), IN_VAIN) && !Went(Pick(obs, LayerQUIC, NoFamily), IN_VAIN)
    && forall o :: o in obs ==> !Differs(o)
  }

  function LineOf(o: Option<Observation>): seq<Line> {
    if o.Some? then [ObservationLine(o.value)] else []
  }

  // ---------------------------------------------------------------------------------------
  // What warrants each finding

  ghost predicate DnsWarrants(obs: seq<Observation>, f: Finding) {
    var dns := Pick(obs, LayerDNS, NoFamily);
    && dns.Some? && dns.value.status != Pass
    && f == Finding(DNSFailure,
                    if ShowsValue(dns.value, KindDNSError, "rcode", Text("NXDOMAIN"))
                       || ShowsValue(dns.value, KindDNSError, "rcode", Text("SERVFAIL")) then Confirmed else Likely,
                    LineOf(dns))
  }

  ghost predicate TcpWarrants(obs: seq<Observation>, f: Finding) {
    && Resolves(obs) && Unreachable(obs)
    && f == Finding(TCPUnreachable,
                    if exists o :: o in obs && o.layer == LayerTCP && Shows(o, KindTCPRefused) then Confirmed else Likely,
                    LineOf(Pick(obs, LayerTCP, IPv4)) + LineOf(Pick(obs, LayerTCP, IPv6)))
  }

  ghost predicate SplitWarrants(obs: seq<Observation>, f: Finding, layer: Layer) {
    && SplitsFirst(obs, layer)
    && f == Finding(IPv6PathFailure, Likely, LineOf(Pick(obs, layer, IPv6)) + LineOf(Pick(obs, layer, IPv4)))
  }

  ghost predicate TlsWarrants(obs: seq<Observation>, f: Finding, fam: Family) {
    var tcp, tls := Pick(obs, LayerTCP, fam), Pick(obs, LayerTLS, fam);
    && Breaks(obs, fam)
    && f == Finding(TLSSpecificFailure,
                    if Shows(tls.value, KindTLSAlert) || Shows(tls.value, KindCertificate) then Confirmed else Likely,
                    LineOf(tcp) + LineOf(tls))
  }

  /** A reset during the handshake, or a certificate of an authority the system does not know. */
  ghost predicate LooksIntercepted(o: Observation) {
    Shows(o, KindTCPReset) || ShowsValue(o, KindCertificate, "type", Text("unknown_authority"))
  }

  ghost predicate ProxyWarrants(obs: seq<Observation>, f: Finding, fam: Family) {
    var tcp, tls := Pick(obs, LayerTCP, fam), Pick(obs, LayerTLS, fam);
    && Breaks(obs, fam) && LooksIntercepted(tls.value)
    && f == Finding(PossibleProxyInterference, Possible, LineOf(tcp) + LineOf(tls))
  }

  ghost predicate UdpWarrants(obs: seq<Observation>, f: Finding) {
    var udp := Pick(obs, LayerUDP, NoFamily);
    && Went(udp, IN_VAIN)
    && f == Finding(UDPUnavailable, if udp.value.status == Fail then Confirmed else Possible, LineOf(udp))
  }

  ghost predicate TcpWorks(obs: seq<Observation>) {
    exists fam :: (fam == IPv4 || fam == IPv6) && Went(Pick(obs, LayerTCP, fam), {Pass})
  }

  ghost predicate QuicWarrants(obs: seq<Observation>, f: Finding) {
    var quic := Pick(obs, LayerQUIC, NoFamily);
    && Went(quic, IN_VAIN)
    && f == Finding(QUICUnavailable,
                    if Shows(quic.value, KindUDPRefused) then Confirmed else if TcpWorks(obs) then Likely else Possible,
                    LineOf(quic))
  }

  ghost predicate HttpWarrants(obs: seq<Observation>, f: Finding, fam: Family) {
    RefusesOn(obs, fam) && f == Finding(HTTPApplicationRejection, Confirmed, LineOf(Pick(obs, LayerHTTP, fam)))
  }

  ghost predicate PartialWarrants(obs: seq<Observation>, f: Finding) {
    && (exists o :: o in obs && Differs(o))
    && f == Finding(PartialAddressFailure, if exists o, a :: o in obs && DiffersFor(o, a) then Confirmed else Likely,
                    PartialLines(obs))
  }

  ghost predicate HealthWarrants(obs: seq<Observation>, f: Finding) {
    && NothingWrong(obs) && Went(Pick(obs, LayerDNS, NoFamily), {Pass}) && TcpWorks(obs) && ThreePass(obs)
    && f == Finding(PathHealthy, Confirmed, PassingLines(obs))
  }

  ghost predicate Warranted(obs: seq<Observation>, f: Finding) {
    match f.kind
    case DNSFailure => DnsWarrants(obs, f)
    case TCPUnreachable => TcpWarrants(obs, f)
    case IPv6PathFailure => Connects(obs) && exists layer :: SplitWarrants(obs, f, layer)
    case TLSSpecificFailure => Connects(obs) && exists fam :: TlsWarrants(obs, f, fam)
    case PossibleProxyInterference => Connects(obs) && exists fam :: ProxyWarrants(obs, f, fam)
    case UDPUnavailable => Connects(obs) && UdpWarrants(obs, f)
    case QUICUnavailable => Connects(obs) && QuicWarrants(obs, f)
    case HTTPApplicationRejection => Connects(obs) && exists fam :: HttpWarrants(obs, f, fam)
    case PartialAddressFailure => Connects(obs) && PartialWarrants(obs, f)
    case PathHealthy => Connects(obs) && HealthWarrants(obs, f)
  }

  // ---------------------------------------------------------------------------------------
  // The vocabulary meets the code's

  lemma HasIs(o: Observation, kind: EvidenceKind)
    ensures Has(o, kind) <==> Shows(o, kind)
  {
    hide FirstEvidence;
    FirstEvidenceMeaning(o.evidence, kind);
    if FirstEvidence(o.evidence, kind).Some? {
      var i: nat :| FirstAt(o.evidence, kind, i) && o.evidence[i] == FirstEvidence(o.evidence, kind).value;
      assert o.evidence[i] in o.evidence;
    }
  }

  /** The first evidence of the kind, if any, has the value. */
  predicate FirstHas(o: Observation, kind: EvidenceKind, key: string, v: Value) {
    var e := FirstEvidence(o.evidence, kind);
    e.Some? && key in e.value.values && e.value.values[key] == v
  }

  lemma ShowsValueIs(o: Observation, kind: EvidenceKind, key: string, v: Value)
    ensures ShowsValue(o, kind, key, v) <==> FirstHas(o, kind, key, v)
  {
    hide FirstEvidence;
    FirstEvidenceMeaning(o.evidence, kind);
  }

  lemma RcodeIs(o: Observation, code: string)
    requires code != ""
    ensures DnsRcode(o) == code <==> ShowsValue(o, KindDNSError, "rcode", Text(code))
  {
    hide FirstEvidence;
    ShowsValueIs(o, KindDNSError, "rcode", Text(code));
  }

  lemma AuthorityIs(o: Observation)
    ensures UnknownAuthority(o) <==> ShowsValue(o, KindCertificate, "type", Text("unknown_authority"))
  {
    hide FirstEvidence;
    ShowsValueIs(o, KindCertificate, "type", Text("unknown_authority"));
  }

  lemma RejectedIs(o: Observation)
    ensures Rejected(Some(o)) <==> Refuses(o)
  {
    hide FirstEvidence, ShowsValue;
    forall n ensures ShowsValue(o, KindHTTPStatus, "status", Number(n)) <==> FirstHas(o, KindHTTPStatus, "status", Number(n)) {
      ShowsValueIs(o, KindHTTPStatus, "status", Number(n));
    }
    if Rejected(Some(o)) {
      var n := FirstEvidence(o.evidence, KindHTTPStatus).value.values["status"].n;
      assert FirstHas(o, KindHTTPStatus, "status", Number(n));
    }
  }

  lemma {:induction false} PassedIs(addresses: seq<AddressOutcome>)
    ensures Passed(addresses) <= |addresses|
    ensures Passed(addresses) > 0 <==> exists a :: a in addresses && a.status == Pass
    ensures Passed(addresses) < |addresses| <==> exists a :: a in addresses && a.status != Pass
  {
    if |addresses| > 0 {
      PassedIs(addresses[1..]);
      assert forall a :: a in addresses <==> a == addresses[0] || a in addresses[1..];
    }
  }

  lemma PartialIs(o: Observation)
    ensures Partial(o) <==> Differs(o)
  {
    hide Passed;
    PassedIs(o.addresses);
  }

  lemma DefiniteIs(o: Observation)
    ensures Partial(o) && Definite(o) <==> exists a :: DiffersFor(o, a)
  {
    hide Partial, Differs;
    PartialIs(o);
    if Partial(o) && Definite(o) {
      var i :| 0 <= i < |o.addresses| && o.addresses[i].status == Fail;
      assert DiffersFor(o, o.addresses[i]);
    }
  }

  lemma LinesAre(a: Option<Observation>, b: Option<Observation>)
    ensures Lines([a]) == LineOf(a) && Lines([a, b]) == LineOf(a) + LineOf(b)
  {
    assert [a][1..] == [] && [b][1..] == [] && [a, b][1..] == [b];
    assert Lines([]) == [];
    assert Lines([b]) == LineOf(b);
  }

  lemma UnreachableIs(obs: seq<Observation>)
    ensures TcpFailsEverywhere(obs) <==> Unreachable(obs)
  {
    if TcpFailsEverywhere(obs) {
      var i :| 0 <= i < |obs| && Attempted(obs[i]);
      assert obs[i] in obs && obs[i].status in {NoStatus, Fail, Timeout};
    }
    if Unreachable(obs) {
      var o :| o in obs && o.layer == LayerTCP && o.status in {NoStatus, Fail, Timeout};
      var i :| 0 <= i < |obs| && obs[i] == o;
      assert Attempted(obs[i]);
      forall j | 0 <= j < |obs| && Attempted(obs[j]) ensures obs[j].status != Pass { assert obs[j] in obs; }
    }
  }

  lemma RefusedIs(obs: seq<Observation>)
    ensures TcpRefused(obs) <==> exists o :: o in obs && o.layer == LayerTCP && Shows(o, KindTCPRefused)
  {
    hide Has, Shows;
    forall o { HasIs(o, KindTCPRefused); }
    if TcpRefused(obs) {
      var i :| 0 <= i < |obs| && obs[i].layer == LayerTCP && Has(obs[i], KindTCPRefused);
      assert obs[i] in obs;
    }
    if o :| o in obs && o.layer == LayerTCP && Shows(o, KindTCPRefused) {
      var i :| 0 <= i < |obs| && obs[i] == o;
    }
  }

  lemma WorksIs(obs: seq<Observation>)
    ensures TcpPassAny(obs) <==> TcpWorks(obs)
  {
    hide Pick;
    if TcpPassAny(obs) {
      var f := if Passes(Pick(obs, LayerTCP, IPv4)) then IPv4 else IPv6;
      assert Went(Pick(obs, LayerTCP, f), {Pass});
    }
  }

  lemma ThreeIs(obs: seq<Observation>)
    ensures |PassingLines(obs)| >= 3 <==> ThreePass(obs)
  {
    hide PassingLines, Supports, ThreePass;
    var at := PassingLinesMeaning(obs);
    SupportsThree(obs, PassingLines(obs), at);
  }

  lemma SupportsAt(obs: seq<Observation>, lines: seq<Line>, at: seq<nat>, j: nat, k: nat)
    requires Supports(obs, lines, at) && j < k < |lines|
    ensures |at| == |lines| && at[j] < at[k] < |obs| && obs[at[j]].status == Pass && obs[at[k]].status == Pass
  {
    assert at[j] in at && at[k] in at;
  }

  lemma SupportsPass(obs: seq<Observation>, lines: seq<Line>, at: seq<nat>, i: nat)
    requires Supports(obs, lines, at) && i < |obs| && obs[i].status == Pass
    ensures |at| == |lines| && i in at
  {
  }

  lemma SupportsThree(obs: seq<Observation>, lines: seq<Line>, at: seq<nat>)
    requires Supports(obs, lines, at)
    ensures |lines| >= 3 <==> ThreePass(obs)
  {
    hide Supports;
    if |lines| >= 3 {
      SupportsAt(obs, lines, at, 0, 1);
      SupportsAt(obs, lines, at, 1, 2);
      var i, j, k := at[0], at[1], at[2];
      assert obs[i].status == Pass && obs[j].status == Pass && obs[k].status == Pass;
    }
    if ThreePass(obs) {
      var i, j, k :| 0 <= i < j < k < |obs| && obs[i].status == Pass && obs[j].status == Pass && obs[k].status == Pass;
      SupportsPass(obs, lines, at, i);
      SupportsPass(obs, lines, at, j);
      SupportsPass(obs, lines, at, k);
      ThreeMembers(at, i, j, k);
    }
  }

  lemma ThreeMembers(at: seq<nat>, i: nat, j: nat, k: nat)
    requires i in at && j in at && k in at && i < j < k
    ensures |at| >= 3
  {
    var a :| 0 <= a < |at| && at[a] == i;
    var b :| 0 <= b < |at| && at[b] == j;
    var c :| 0 <= c < |at| && at[c] == k;
    assert a != b && a != c && b != c;
  }

  // ---------------------------------------------------------------------------------------
  // Part by part

  lemma SplitsIs(obs: seq<Observation>, layer: Layer)
    ensures PairFails(Pick(obs, layer, IPv4), Pick(obs, layer, IPv6)) <==> Splits(obs, layer)
  {
    hide Pick;
  }

  lemma IPv6PartIs(obs: seq<Observation>, f: Finding)
    ensures f in IPv6Part(obs) <==> exists layer :: SplitWarrants(obs, f, layer)
  {
    hide Pick, Lines, PairFails, Splits;
    SplitsIs(obs, LayerTCP);
    SplitsIs(obs, LayerTLS);
    SplitsIs(obs, LayerQUIC);
    LinesAre(Pick(obs, LayerTCP, IPv6), Pick(obs, LayerTCP, IPv4));
    LinesAre(Pick(obs, LayerTLS, IPv6), Pick(obs, LayerTLS, IPv4));
    LinesAre(Pick(obs, LayerQUIC, IPv6), Pick(obs, LayerQUIC, IPv4));
    hide LineOf;
    var layer := if Splits(obs, LayerTCP) then LayerTCP else if Splits(obs, LayerTLS) then LayerTLS else LayerQUIC;
    assert forall l :: SplitsFirst(obs, l) ==> l == layer;
    assert f in IPv6Part(obs) <==> SplitWarrants(obs, f, layer);
  }

  lemma BrokenIs(o: Option<Observation>)
    ensures Broken(o) <==> Went(o, IN_VAIN)
  {
  }

  lemma BreaksIs(obs: seq<Observation>, fam: Family)
    requires fam == IPv4 || fam == IPv6
    ensures Passes(Pick(obs, LayerTCP, fam)) && Broken(Pick(obs, LayerTLS, fam)) <==> Breaks(obs, fam)
  {
    hide Pick;
  }

  lemma TLSPartIs(obs: seq<Observation>, fam: Family, f: Finding)
    requires fam == IPv4 || fam == IPv6
    ensures f in TLSPart(obs, fam) <==> TlsWarrants(obs, f, fam) || ProxyWarrants(obs, f, fam)
  {
    hide Pick, Lines, Has, Shows, ShowsValue, UnknownAuthority, Broken, Passes, Breaks;
    BreaksIs(obs, fam);
    var tcp, tls := Pick(obs, LayerTCP, fam), Pick(obs, LayerTLS, fam);
    LinesAre(tcp, tls);
    hide LineOf;
    if Breaks(obs, fam) {
      BreaksThere(obs, fam);
      HasIs(tls.value, KindTLSAlert);
      HasIs(tls.value, KindCertificate);
      HasIs(tls.value, KindTCPReset);
      AuthorityIs(tls.value);
    }
  }

  lemma BreaksThere(obs: seq<Observation>, fam: Family)
    requires Breaks(obs, fam)
    ensures Pick(obs, LayerTCP, fam).Some? && Pick(obs, LayerTLS, fam).Some?
  {
    hide Pick;
  }

  lemma UDPPartIs(obs: seq<Observation>, f: Finding)
    ensures f in UDPPart(obs) <==> UdpWarrants(obs, f)
  {
    hide Pick, Lines;
    var udp := Pick(obs, LayerUDP, NoFamily);
    LinesAre(udp, udp);
    BrokenIs(udp);
    hide LineOf;
  }

  lemma QUICPartIs(obs: seq<Observation>, f: Finding)
    ensures f in QUICPart(obs) <==> QuicWarrants(obs, f)
  {
    hide Pick, Lines, Has, Shows, TcpPassAny, TcpWorks;
    var quic := Pick(obs, LayerQUIC, NoFamily);
    LinesAre(quic, quic);
    BrokenIs(quic);
    WorksIs(obs);
    if quic.Some? { HasIs(quic.value, KindUDPRefused); }
    hide LineOf;
  }

  lemma HTTPPartIs(obs: seq<Observation>, fam: Family, f: Finding)
    requires fam == IPv4 || fam == IPv6
    ensures f in HTTPPart(obs, fam) <==> HttpWarrants(obs, f, fam)
  {
    hide Pick, Lines, Rejected, Refuses;
    var http := Pick(obs, LayerHTTP, fam);
    LinesAre(http, http);
    RejectedIsThere(http);
    if http.Some? { RejectedIs(http.value); }
    hide LineOf;
  }

  lemma PartialPartIs(obs: seq<Observation>, f: Finding)
    ensures f in PartialPart(obs) <==> PartialWarrants(obs, f)
  {
    hide PartialLines, Differs, DiffersFor, Partial, Definite;
    NoPartialNoLines(obs);
    forall i | 0 <= i < |obs| ensures Partial(obs[i]) <==> Differs(obs[i]) { PartialIs(obs[i]); }
    assert (exists o :: o in obs && Differs(o)) <==> PartialLines(obs) != [] by {
      if o :| o in obs && Differs(o) { var i :| 0 <= i < |obs| && obs[i] == o; }
      if i :| 0 <= i < |obs| && Partial(obs[i]) { assert obs[i] in obs; }
    }
    PartialDefiniteIs(obs);
  }

  lemma PartialDefiniteIs(obs: seq<Observation>)
    ensures PartialDefinite(obs) <==> exists o, a :: o in obs && DiffersFor(o, a)
  {
    hide Differs, DiffersFor, Partial, Definite;
    if PartialDefinite(obs) {
      var i :| 0 <= i < |obs| && Partial(obs[i]) && Definite(obs[i]);
      assert obs[i] in obs;
      DefiniteIs(obs[i]);
    }
    if o, a :| o in obs && DiffersFor(o, a) {
      var i :| 0 <= i < |obs| && obs[i] == o;
      DefiniteIs(obs[i]);
    }
  }

  lemma TroubleIs(obs: seq<Observation>, f: Finding)
    ensures f in Trouble(obs) <==>
            || f in IPv6Part(obs) || f in TLSPart(obs, IPv4) || f in TLSPart(obs, IPv6) || f in UDPPart(obs)
            || f in QUICPart(obs) || f in HTTPPart(obs, IPv4) || f in HTTPPart(obs, IPv6) || f in PartialPart(obs)
  {
    hide IPv6Part, TLSPart, UDPPart, QUICPart, HTTPPart, PartialPart;
  }

  ghost predicate TroubleWarrants(obs: seq<Observation>, f: Finding) {
    match f.kind
    case DNSFailure | TCPUnreachable | PathHealthy => false
    case IPv6PathFailure => exists layer :: SplitWarrants(obs, f, layer)
    case TLSSpecificFailure => exists fam :: TlsWarrants(obs, f, fam)
    case PossibleProxyInterference => exists fam :: ProxyWarrants(obs, f, fam)
    case UDPUnavailable => UdpWarrants(obs, f)
    case QUICUnavailable => QuicWarrants(obs, f)
    case HTTPApplicationRejection => exists fam :: HttpWarrants(obs, f, fam)
    case PartialAddressFailure => PartialWarrants(obs, f)
  }

  lemma WarrantKinds(obs: seq<Observation>, f: Finding)
    ensures forall layer :: SplitWarrants(obs, f, layer) ==> f.kind == IPv6PathFailure
    ensures forall fam :: TlsWarrants(obs, f, fam) ==> f.kind == TLSSpecificFailure && (fam == IPv4 || fam == IPv6)
    ensures forall fam :: ProxyWarrants(obs, f, fam) ==> f.kind == PossibleProxyInterference && (fam == IPv4 || fam == IPv6)
    ensures forall fam :: HttpWarrants(obs, f, fam) ==> f.kind == HTTPApplicationRejection && (fam == IPv4 || fam == IPv6)
    ensures UdpWarrants(obs, f) ==> f.kind == UDPUnavailable
    ensures QuicWarrants(obs, f) ==> f.kind == QUICUnavailable
    ensures PartialWarrants(obs, f) ==> f.kind == PartialAddressFailure
  {
    hide Pick, Shows, ShowsValue, LineOf, Splits, Refuses, Differs, DiffersFor, TcpWorks, PartialLines, Went;
  }

  lemma TroubleIff(obs: seq<Observation>, f: Finding)
    ensures f in Trouble(obs) <==> TroubleWarrants(obs, f)
  {
    hide Trouble, IPv6Part, TLSPart, UDPPart, QUICPart, HTTPPart, PartialPart, SplitWarrants, TlsWarrants, ProxyWarrants,
      UdpWarrants, QuicWarrants, HttpWarrants, PartialWarrants;
    TroubleIs(obs, f);
    WarrantKinds(obs, f);
    IPv6PartIs(obs, f);
    TLSPartIs(obs, IPv4, f);
    TLSPartIs(obs, IPv6, f);
    UDPPartIs(obs, f);
    QUICPartIs(obs, f);
    HTTPPartIs(obs, IPv4, f);
    HTTPPartIs(obs, IPv6, f);
    PartialPartIs(obs, f);
  }

  // ---------------------------------------------------------------------------------------
  // All findings

  lemma NothingWrongIs(obs: seq<Observation>)
    ensures Trouble(obs) == [] <==> NothingWrong(obs)
  {
    hide Trouble, Pick, PairFails, Splits, Broken, Went, Rejected, Refuses, Partial, Differs, Passes, Breaks;
    TroubleMeansWrong(obs);
    SplitsIs(obs, LayerTCP);
    SplitsIs(obs, LayerTLS);
    SplitsIs(obs, LayerQUIC);
    BreaksIs(obs, IPv4);
    BreaksIs(obs, IPv6);
    forall f { BreaksOnlyThere(obs, f); }
    BrokenIs(Pick(obs, LayerUDP, NoFamily));
    BrokenIs(Pick(obs, LayerQUIC, NoFamily));
    forall f | f == IPv4 || f == IPv6 ensures Rejected(Pick(obs, LayerHTTP, f)) <==> RefusesOn(obs, f) {
      RejectedIsThere(Pick(obs, LayerHTTP, f));
      if Pick(obs, LayerHTTP, f).Some? { RejectedIs(Pick(obs, LayerHTTP, f).value); }
    }
    forall o ensures Partial(o) <==> Differs(o) { PartialIs(o); }
    assert (forall o :: o in obs ==> !Differs(o)) <==> forall i :: 0 <= i < |obs| ==> !Partial(obs[i]);
  }

  lemma BreaksOnlyThere(obs: seq<Observation>, f: Family)
    ensures Breaks(obs, f) ==> f == IPv4 || f == IPv6
  {
    hide Pick;
  }

  lemma DnsIs(obs: seq<Observation>, f: Finding)
    requires !Resolves(obs)
    ensures f in InferFrom(obs) <==> DnsWarrants(obs, f)
  {
    hide Pick, Lines, DnsRcode, ShowsValue, Trouble, TcpFailsEverywhere, TcpRefused, LooksHealthy, PassingLines;
    var dns := Pick(obs, LayerDNS, NoFamily);
    LinesAre(dns, dns);
    RcodeIs(dns.value, "NXDOMAIN");
    RcodeIs(dns.value, "SERVFAIL");
    hide LineOf;
  }

  lemma TcpIs(obs: seq<Observation>, f: Finding)
    requires Resolves(obs) && Unreachable(obs)
    ensures f in InferFrom(obs) <==> TcpWarrants(obs, f)
  {
    hide Pick, Lines, DnsRcode, ShowsValue, Shows, Trouble, TcpFailsEverywhere, TcpRefused, LooksHealthy, PassingLines, Unreachable;
    UnreachableIs(obs);
    RefusedIs(obs);
    LinesAre(Pick(obs, LayerTCP, IPv4), Pick(obs, LayerTCP, IPv6));
    hide LineOf;
  }

  lemma HealthIs(obs: seq<Observation>)
    ensures Trouble(obs) == [] && LooksHealthy(obs) <==>
            NothingWrong(obs) && Went(Pick(obs, LayerDNS, NoFamily), {Pass}) && TcpWorks(obs) && ThreePass(obs)
  {
    hide Trouble, NothingWrong, Pick, TcpPassAny, TcpWorks, PassingLines, ThreePass;
    NothingWrongIs(obs);
    WorksIs(obs);
    ThreeIs(obs);
  }

  lemma ConnectedIs(obs: seq<Observation>, f: Finding)
    requires Connects(obs)
    ensures f in InferFrom(obs) <==> TroubleWarrants(obs, f) || HealthWarrants(obs, f)
  {
    hide Pick, Lines, DnsRcode, Trouble, TcpFailsEverywhere, TcpRefused, LooksHealthy, PassingLines, Unreachable, TroubleWarrants,
      NothingWrong, Went, TcpWorks, ThreePass;
    UnreachableIs(obs);
    TroubleIff(obs, f);
    HealthIs(obs);
  }

  /** A finding is reported exactly when the record warrants it: every kind of finding, with its
      confidence and its evidence. */
  lemma FindingIff(obs: seq<Observation>, f: Finding)
    ensures f in InferFrom(obs) <==> Warranted(obs, f)
  {
    hide InferFrom, Resolves, Unreachable, DnsWarrants, TcpWarrants, HealthWarrants, SplitWarrants, TlsWarrants, ProxyWarrants,
      UdpWarrants, QuicWarrants, HttpWarrants, PartialWarrants;
    LoneWarrants(obs, f);
    if !Resolves(obs) {
      DnsIs(obs, f);
    } else if Unreachable(obs) {
      TcpIs(obs, f);
    } else {
      ConnectedIs(obs, f);
    }
  }

  lemma LoneWarrants(obs: seq<Observation>, f: Finding)
    ensures DnsWarrants(obs, f) ==> !Resolves(obs) && f.kind == DNSFailure
    ensures TcpWarrants(obs, f) ==> Resolves(obs) && Unreachable(obs) && f.kind == TCPUnreachable
    ensures HealthWarrants(obs, f) ==> f.kind == PathHealthy
  {
    hide Pick, ShowsValue, Shows, LineOf, Unreachable, NothingWrong, TcpWorks, ThreePass, PassingLines;
  }

  /** path_healthy is reported exactly when nothing is held against the path, the chosen DNS
      observation passed, TCP passed on IPv4 or IPv6 and three observations passed. */
  lemma HealthyExactly(obs: seq<Observation>)
    ensures (exists f :: f in InferFrom(obs) && f.kind == PathHealthy) <==>
            NothingWrong(obs) && Went(Pick(obs, LayerDNS, NoFamily), {Pass}) && TcpWorks(obs) && ThreePass(obs)
    ensures forall f :: f in InferFrom(obs) && f.kind == PathHealthy ==>
              f == Finding(PathHealthy, Confirmed, PassingLines(obs))
  {
    hide InferFrom, Untroubled, NothingWrong, Pick, TcpPassAny, TcpWorks, PassingLines, ThreePass, Trouble;
    HealthyWhen(obs);
    TroubleMeansWrong(obs);
    NothingWrongIs(obs);
    WorksIs(obs);
    ThreeIs(obs);
  }

  // ---------------------------------------------------------------------------------------
  // Order and number

  function Kinds(fs: seq<Finding>): seq<FindingKind> { seq(|fs|, i requires 0 <= i < |fs| => fs[i].kind) }

  ghost function When(b: bool, kind: FindingKind): seq<FindingKind> { if b then [kind] else [] }

  /** The kinds reported for one family's handshake: each sign of interception counts. */
  ghost function HandshakeKinds(obs: seq<Observation>, f: Family): seq<FindingKind> {
    if !Breaks(obs, f) then []
    else
      var tls := Pick(obs, LayerTLS, f).value;
      [TLSSpecificFailure] + When(Shows(tls, KindTCPReset), PossibleProxyInterference)
      + When(ShowsValue(tls, KindCertificate, "type", Text("unknown_authority")), PossibleProxyInterference)
  }

  ghost function TroubleInOrder(obs: seq<Observation>): seq<FindingKind> {
    When(exists layer :: SplitsFirst(obs, layer), IPv6PathFailure)
    + HandshakeKinds(obs, IPv4) + HandshakeKinds(obs, IPv6)
    + When(Went(Pick(obs, LayerUDP, NoFamily), IN_VAIN), UDPUnavailable)
    + When(Went(Pick(obs, LayerQUIC, NoFamily), IN_VAIN), QUICUnavailable)
    + When(RefusesOn(obs, IPv4), HTTPApplicationRejection) + When(RefusesOn(obs, IPv6), HTTPApplicationRejection)
    + When(exists o :: o in obs && Differs(o), PartialAddressFailure)
  }

  lemma KindsPlus(x: seq<Finding>, y: seq<Finding>)
    ensures Kinds(x + y) == Kinds(x) + Kinds(y)
  {
  }

  lemma HandshakeKindsAre(obs: seq<Observation>, f: Family)
    requires f == IPv4 || f == IPv6
    ensures Kinds(TLSPart(obs, f)) == HandshakeKinds(obs, f)
  {
    hide Pick, Lines, Has, Shows, ShowsValue, UnknownAuthority, Broken, Passes, Breaks;
    BreaksIs(obs, f);
    if Breaks(obs, f) {
      BreaksThere(obs, f);
      var tls := Pick(obs, LayerTLS, f).value;
      HasIs(tls, KindTCPReset);
      AuthorityIs(tls);
    }
  }

  lemma SingleKinds(obs: seq<Observation>)
    ensures Kinds(IPv6Part(obs)) == When(exists layer :: SplitsFirst(obs, layer), IPv6PathFailure)
    ensures Kinds(UDPPart(obs)) == When(Went(Pick(obs, LayerUDP, NoFamily), IN_VAIN), UDPUnavailable)
    ensures Kinds(QUICPart(obs)) == When(Went(Pick(obs, LayerQUIC, NoFamily), IN_VAIN), QUICUnavailable)
  {
    hide Pick, Lines, PairFails, Splits, Has, TcpPassAny, Broken, Went;
    SplitsIs(obs, LayerTCP);
    SplitsIs(obs, LayerTLS);
    SplitsIs(obs, LayerQUIC);
    BrokenIs(Pick(obs, LayerUDP, NoFamily));
    BrokenIs(Pick(obs, LayerQUIC, NoFamily));
    var layer := if Splits(obs, LayerTCP) then LayerTCP else if Splits(obs, LayerTLS) then LayerTLS else LayerQUIC;
    assert SplitsFirst(obs, layer) <==> exists l :: SplitsFirst(obs, l);
  }

  lemma LastKinds(obs: seq<Observation>)
    ensures forall f :: f in [IPv4, IPv6] ==> Kinds(HTTPPart(obs, f)) == When(RefusesOn(obs, f), HTTPApplicationRejection)
    ensures Kinds(PartialPart(obs)) == When(exists o :: o in obs && Differs(o), PartialAddressFailure)
  {
    hide Pick, Lines, Rejected, Refuses, PartialLines, PartialDefinite, Partial, Differs;
    forall f | f in [IPv4, IPv6] ensures Rejected(Pick(obs, LayerHTTP, f)) <==> RefusesOn(obs, f) {
      RejectedIsThere(Pick(obs, LayerHTTP, f));
      if Pick(obs, LayerHTTP, f).Some? { RejectedIs(Pick(obs, LayerHTTP, f).value); }
    }
    NoPartialNoLines(obs);
    forall o ensures Partial(o) <==> Differs(o) { PartialIs(o); }
    assert (exists o :: o in obs && Differs(o)) <==> exists i :: 0 <= i < |obs| && Partial(obs[i]) by {
      if o :| o in obs && Differs(o) { var i :| 0 <= i < |obs| && obs[i] == o; }
      if i :| 0 <= i < |obs| && Partial(obs[i]) { assert obs[i] in obs; }
    }
  }

  /** Findings come in a fixed order, one for each failure: IPv6, the handshakes of IPv4 and of IPv6,
      UDP, QUIC, HTTP over IPv4 and over IPv6, differing addresses. */
  lemma FindingsInOrder(obs: seq<Observation>)
    requires Connects(obs) && !NothingWrong(obs)
    ensures Kinds(InferFrom(obs)) == TroubleInOrder(obs)
  {
    hide Resolves, Unreachable, NothingWrong, IPv6Part, TLSPart, UDPPart, QUICPart, HTTPPart, PartialPart, SplitsFirst, HandshakeKinds,
      RefusesOn, Differs, TcpRefused, DnsRcode, TcpFailsEverywhere, Pick, LooksHealthy;
    var a, b, c, d, e, g, h, i := IPv6Part(obs), TLSPart(obs, IPv4), TLSPart(obs, IPv6), UDPPart(obs), QUICPart(obs),
      HTTPPart(obs, IPv4), HTTPPart(obs, IPv6), PartialPart(obs);
    ConnectsOn(obs);
    NothingWrongIs(obs);
    assert InferFrom(obs) == a + b + c + d + e + g + h + i;
    KindsPlus(a, b);
    KindsPlus(a + b, c);
    KindsPlus(a + b + c, d);
    KindsPlus(a + b + c + d, e);
    KindsPlus(a + b + c + d + e, g);
    KindsPlus(a + b + c + d + e + g, h);
    KindsPlus(a + b + c + d + e + g + h, i);
    hide Kinds;
    SingleKinds(obs);
    HandshakeKindsAre(obs, IPv4);
    HandshakeKindsAre(obs, IPv6);
    LastKinds(obs);
  }

  lemma ConnectsOn(obs: seq<Observation>)
    requires Connects(obs)
    ensures !TcpFailsEverywhere(obs) && (Pick(obs, LayerDNS, NoFamily).Some? ==> Pick(obs, LayerDNS, NoFamily).value.status == Pass)
  {
    hide Pick, TcpFailsEverywhere, Unreachable;
    UnreachableIs(obs);
  }

  /** The number of addresses that passed. */
  ghost function Worked(addresses: seq<AddressOutcome>): set<nat> {
    set i: nat | i < |addresses| && addresses[i].status == Pass
  }

  lemma NonePassed(addresses: seq<AddressOutcome>)
    requires addresses == []
    ensures Passed(addresses) == 0
  {
  }

  lemma WorkedMore(addresses: seq<AddressOutcome>)
    ensures addresses == [] ==> Worked(addresses) == {}
    ensures addresses != [] ==>
              var n := |addresses| - 1;
              |Worked(addresses)| == |Worked(addresses[..n])| + if addresses[n].status == Pass then 1 else 0
  {
    if addresses != [] {
      var n := |addresses| - 1;
      var before := addresses[..n];
      assert forall i :: 0 <= i < n ==> before[i] == addresses[i];
      if addresses[n].status == Pass {
        assert Worked(addresses) == Worked(before) + {n as nat};
      } else {
        assert Worked(addresses) == Worked(before);
      }
    }
  }

  lemma {:induction false} PassedCounts(addresses: seq<AddressOutcome>)
    ensures Passed(addresses) == |Worked(addresses)|
    decreases |addresses|
  {
    hide Passed, Worked;
    WorkedMore(addresses);
    if |addresses| > 0 {
      PassedCounts(addresses[..|addresses| - 1]);
      PassedLast(addresses);
    } else {
      NonePassed(addresses);
    }
  }

  lemma {:induction false} PassedLast(addresses: seq<AddressOutcome>)
    requires |addresses| > 0
    ensures Passed(addresses) == Passed(addresses[..|addresses| - 1]) + if addresses[|addresses| - 1].status == Pass then 1 else 0
  {
    if |addresses| > 1 {
      PassedLast(addresses[1..]);
      assert addresses[..|addresses| - 1][1..] == addresses[1..][..|addresses[1..]| - 1];
    }
  }

  lemma {:induction false} FailedMembers(layer: Layer, addresses: seq<AddressOutcome>, line: Line)
    ensures line in FailedLines(layer, addresses) <==>
            exists a :: a in addresses && a.status != Pass && line == AddressLine(layer, a)
  {
    if |addresses| > 0 {
      FailedMembers(layer, addresses[1..], line);
      assert forall a :: a in addresses <==> a == addresses[0] || a in addresses[1..];
    }
  }

  /** The line tells of `o`: how many of its addresses passed, or one that did not. */
  ghost predicate Tells(o: Observation, line: Line) {
    || line == TallyLine(o.layer, |Worked(o.addresses)|, |o.addresses|)
    || exists a :: a in o.addresses && a.status != Pass && line == AddressLine(o.layer, a)
  }

  /** The evidence of partial_address_failure: for each observation with differing addresses a tally,
      and every address that did not pass. */
  lemma {:induction false} PartialLinesMeaning(obs: seq<Observation>, line: Line)
    ensures line in PartialLines(obs) <==> exists o :: o in obs && Differs(o) && Tells(o, line)
  {
    hide Passed, FailedLines, Partial, Differs, Tells;
    if |obs| > 0 {
      var n := |obs| - 1;
      PartialLinesMeaning(obs[..n], line);
      PartialIs(obs[n]);
      assert line in [TallyLine(obs[n].layer, Passed(obs[n].addresses), |obs[n].addresses|)] + FailedLines(obs[n].layer, obs[n].addresses)
        <==> Tells(obs[n], line) by { TellsIs(obs[n], line); }
      assert forall o :: o in obs <==> o in obs[..n] || o == obs[n];
    }
  }

  lemma TellsIs(o: Observation, line: Line)
    ensures Tells(o, line) <==> line in [TallyLine(o.layer, Passed(o.addresses), |o.addresses|)] + FailedLines(o.layer, o.addresses)
  {
    hide Passed, FailedLines, Worked;
    PassedCounts(o.addresses);
    FailedMembers(o.layer, o.addresses, line);
  }
}
