/** Inference: findings drawn from the recorded observations. */
module Infer {
  import opened Model
  import opened Selectors
  import opened Fast

  datatype FindingKind =
    | DNSFailure | IPv6PathFailure | TCPUnreachable | TLSSpecificFailure | UDPUnavailable
    | QUICUnavailable | HTTPApplicationRejection | PossibleProxyInterference
    | PartialAddressFailure | PathHealthy

  datatype Confidence = Confirmed | Likely | Possible

  /** One line of evidence, kept as what it is rendered from. */
  datatype Line =
    | ObservationLine(o: Observation)
    | TallyLine(layer: Layer, passed: nat, total: nat)
    | AddressLine(layer: Layer, outcome: AddressOutcome)

  datatype Finding = Finding(kind: FindingKind, confidence: Confidence, evidence: seq<Line>)

  function Lines(obs: seq<Option<Observation>>): seq<Line> {
    if |obs| == 0 then []
    else (if obs[0].Some? then [ObservationLine(obs[0].value)] else []) + Lines(obs[1..])
  }

  function Found(kind: FindingKind, conf: Confidence, obs: seq<Option<Observation>>): seq<Finding> {
    [Finding(kind, conf, Lines(obs))]
  }

  predicate Has(o: Observation, kind: EvidenceKind) {
    FirstEvidence(o.evidence, kind).Some?
  }

  function DnsRcode(o: Observation): string {
    match FirstEvidence(o.evidence, KindDNSError)
    case None => ""
    case Some(ev) => if "rcode" in ev.values && ev.values["rcode"].Text? then ev.values["rcode"].text else ""
  }

  /** An attempted TCP connect: skipped and unknown observations are not attempts. */
  predicate Attempted(o: Observation) {
    o.layer == LayerTCP && o.status != Skipped && o.status != Unknown
  }

  predicate TcpFailsEverywhere(obs: seq<Observation>) {
    (exists i :: 0 <= i < |obs| && Attempted(obs[i]))
    && forall i :: 0 <= i < |obs| && Attempted(obs[i]) ==> obs[i].status != Pass
  }

  predicate TcpRefused(obs: seq<Observation>) {
    exists i :: 0 <= i < |obs| && obs[i].layer == LayerTCP && Has(obs[i], KindTCPRefused)
  }

  predicate PairFails(v4: Option<Observation>, v6: Option<Observation>) {
    Passes(v4) && v6.Some? && (v6.value.status == Fail || v6.value.status == Timeout)
  }

  function IPv6Part(obs: seq<Observation>): seq<Finding> {
    var tcp4, tcp6 := Pick(obs, LayerTCP, IPv4), Pick(obs, LayerTCP, IPv6);
    var tls4, tls6 := Pick(obs, LayerTLS, IPv4), Pick(obs, LayerTLS, IPv6);
    var q4, q6 := Pick(obs, LayerQUIC, IPv4), Pick(obs, LayerQUIC, IPv6);
    if PairFails(tcp4, tcp6) then Found(IPv6PathFailure, Likely, [tcp6, tcp4])
    else if PairFails(tls4, tls6) then Found(IPv6PathFailure, Likely, [tls6, tls4])
    else if PairFails(q4, q6) then Found(IPv6PathFailure, Likely, [q6, q4])
    else []
  }

  /** Tried and not passed; a skipped observation was never probed. */
  predicate Broken(o: Option<Observation>) {
    o.Some? && o.value.status != Pass && o.value.status != Skipped
  }

  predicate UnknownAuthority(o: Observation) {
    match FirstEvidence(o.evidence, KindCertificate)
    case None => false
    case Some(ev) => "type" in ev.values && ev.values["type"] == Text("unknown_authority")
  }

  function TLSPart(obs: seq<Observation>, fam: Family): seq<Finding> {
    var tcp, tls := Pick(obs, LayerTCP, fam), Pick(obs, LayerTLS, fam);
    if !Passes(tcp) || !Broken(tls) then []
    else
      var conf := if Has(tls.value, KindTLSAlert) || Has(tls.value, KindCertificate) then Confirmed else Likely;
      Found(TLSSpecificFailure, conf, [tcp, tls])
      + (if Has(tls.value, KindTCPReset) then Found(PossibleProxyInterference, Possible, [tcp, tls]) else [])
      + (if UnknownAuthority(tls.value) then Found(PossibleProxyInterference, Possible, [tcp, tls]) else [])
  }

  function UDPPart(obs: seq<Observation>): seq<Finding> {
    var udp := Pick(obs, LayerUDP, NoFamily);
    if !Broken(udp) then []
    else Found(UDPUnavailable, if udp.value.status == Fail then Confirmed else Possible, [udp])
  }

  predicate TcpPassAny(obs: seq<Observation>) {
    Passes(Pick(obs, LayerTCP, IPv4)) || Passes(Pick(obs, LayerTCP, IPv6))
  }

  function QUICPart(obs: seq<Observation>): seq<Finding> {
    var quic := Pick(obs, LayerQUIC, NoFamily);
    if !Broken(quic) then []
    else
      Found(QUICUnavailable,
            if Has(quic.value, KindUDPRefused) then Confirmed else if TcpPassAny(obs) then Likely else Possible,
            [quic])
  }

  /** The server answered with a 4xx or 5xx. */
  predicate Rejected(o: Option<Observation>) {
    o.Some? && o.value.status == Fail &&
    match FirstEvidence(o.value.evidence, KindHTTPStatus)
    case None => false
    case Some(ev) => "status" in ev.values && ev.values["status"].Number? && ev.values["status"].n >= 400
  }

  function HTTPPart(obs: seq<Observation>, fam: Family): seq<Finding> {
    var http := Pick(obs, LayerHTTP, fam);
    if Rejected(http) then Found(HTTPApplicationRejection, Confirmed, [http]) else []
  }

  function Passed(addresses: seq<AddressOutcome>): nat {
    if |addresses| == 0 then 0
    else (if addresses[0].status == Pass then 1 else 0) + Passed(addresses[1..])
  }

  /** Some addresses of the name worked and others did not. */
  predicate Partial(o: Observation) {
    0 < Passed(o.addresses) < |o.addresses|
  }

  function FailedLines(layer: Layer, addresses: seq<AddressOutcome>): seq<Line> {
    if |addresses| == 0 then []
    else (if addresses[0].status != Pass then [AddressLine(layer, addresses[0])] else [])
         + FailedLines(layer, addresses[1..])
  }

  predicate Definite(o: Observation) {
    exists i :: 0 <= i < |o.addresses| && o.addresses[i].status == Fail
  }

  function PartialLines(obs: seq<Observation>): seq<Line> {
    if |obs| == 0 then []
    else
      var n := |obs| - 1;
      PartialLines(obs[..n])
      + if !Partial(obs[n]) then []
        else [TallyLine(obs[n].layer, Passed(obs[n].addresses), |obs[n].addresses|)]
             + FailedLines(obs[n].layer, obs[n].addresses)
  }

  predicate PartialDefinite(obs: seq<Observation>) {
    exists i :: 0 <= i < |obs| && Partial(obs[i]) && Definite(obs[i])
  }

  function PartialPart(obs: seq<Observation>): seq<Finding> {
    if PartialLines(obs) == [] then []
    else [Finding(PartialAddressFailure, if PartialDefinite(obs) then Confirmed else Likely, PartialLines(obs))]
  }

  function PassingLines(obs: seq<Observation>): seq<Line> {
    if |obs| == 0 then []
    else
      var n := |obs| - 1;
      PassingLines(obs[..n]) + if obs[n].status == Pass then [ObservationLine(obs[n])] else []
  }

  /** The findings besides path_healthy once names resolve and some TCP connect worked. */
  function Trouble(obs: seq<Observation>): seq<Finding> {
    IPv6Part(obs) + TLSPart(obs, IPv4) + TLSPart(obs, IPv6) + UDPPart(obs) + QUICPart(obs)
    + HTTPPart(obs, IPv4) + HTTPPart(obs, IPv6) + PartialPart(obs)
  }

  predicate LooksHealthy(obs: seq<Observation>) {
    Passes(Pick(obs, LayerDNS, NoFamily)) && TcpPassAny(obs) && |PassingLines(obs)| >= 3
  }

  function InferFrom(obs: seq<Observation>): seq<Finding> {
    var dns := Pick(obs, LayerDNS, NoFamily);
    if dns.Some? && dns.value.status != Pass then
      var rcode := DnsRcode(dns.value);
      Found(DNSFailure, if rcode == "NXDOMAIN" || rcode == "SERVFAIL" then Confirmed else Likely, [dns])
    else if TcpFailsEverywhere(obs) then
      Found(TCPUnreachable, if TcpRefused(obs) then Confirmed else Likely,
            [Pick(obs, LayerTCP, IPv4), Pick(obs, LayerTCP, IPv6)])
    else if Trouble(obs) == [] && LooksHealthy(obs) then
      [Finding(PathHealthy, Confirmed, PassingLines(obs))]
    else Trouble(obs)
  }

  // ---------------------------------------------------------------------------------------
  // The loops

  method AddressTally(o: Observation) returns (passed: nat, failed: nat)
    ensures passed == Passed(o.addresses) && passed + failed == |o.addresses|
  {
    passed, failed := 0, 0;
    var i := 0;
    while i < |o.addresses|
      invariant 0 <= i <= |o.addresses|
      invariant passed + Passed(o.addresses[i..]) == Passed(o.addresses) && passed + failed == i
    {
      assert o.addresses[i..][1..] == o.addresses[i + 1..];
      if o.addresses[i].status == Pass {
        passed := passed + 1;
      } else {
        failed := failed + 1;
      }
      i := i + 1;
    }
  }

  method TcpAllFailedLoop(obs: seq<Observation>) returns (all: bool)
    ensures all == TcpFailsEverywhere(obs)
  {
    all := false;
    for i := 0 to |obs|
      invariant all <==> exists j :: 0 <= j < i && Attempted(obs[j])
      invariant forall j :: 0 <= j < i && Attempted(obs[j]) ==> obs[j].status != Pass
    {
      if Attempted(obs[i]) {
        all := true;
        if obs[i].status == Pass { return false; }
      }
    }
  }

  method TcpRefusedLoop(obs: seq<Observation>) returns (refused: bool)
    ensures refused == TcpRefused(obs)
  {
    refused := false;
    for i := 0 to |obs|
      invariant refused <==> exists j :: 0 <= j < i && obs[j].layer == LayerTCP && Has(obs[j], KindTCPRefused)
    {
      if obs[i].layer == LayerTCP && Has(obs[i], KindTCPRefused) { refused := true; }
    }
  }

  method FailedAddresses(o: Observation) returns (lines: seq<Line>, definite: bool)
    ensures lines == FailedLines(o.layer, o.addresses) && definite == Definite(o)
  {
    hide FailedLines;
    lines, definite := [], false;
    var i := 0;
    assert o.addresses[0..] == o.addresses;
    while i < |o.addresses|
      invariant 0 <= i <= |o.addresses|
      invariant lines + FailedLines(o.layer, o.addresses[i..]) == FailedLines(o.layer, o.addresses)
      invariant definite <==> exists j :: 0 <= j < i && o.addresses[j].status == Fail
    {
      var a := o.addresses[i];
      FailedStep(o.layer, o.addresses, i);
      if a.status != Pass {
        if a.status == Fail { definite := true; }
        lines := lines + [AddressLine(o.layer, a)];
      }
      i := i + 1;
    }
    NoFailedLines(o.layer, o.addresses[i..]);
  }

  lemma FailedStep(layer: Layer, addresses: seq<AddressOutcome>, i: nat)
    requires i < |addresses|
    ensures FailedLines(layer, addresses[i..])
            == (if addresses[i].status != Pass then [AddressLine(layer, addresses[i])] else []) + FailedLines(layer, addresses[i + 1..])
  {
    assert addresses[i..][0] == addresses[i] && addresses[i..][1..] == addresses[i + 1..];
  }

  lemma NoFailedLines(layer: Layer, addresses: seq<AddressOutcome>)
    requires addresses == []
    ensures FailedLines(layer, addresses) == []
  {
  }

  method PartialFailures(obs: seq<Observation>) returns (out: seq<Finding>)
    ensures out == PartialPart(obs)
  {
    hide FailedLines, Passed, Definite;
    var lines: seq<Line> := [];
    var seen, definite := false, false;
    for i := 0 to |obs|
      invariant lines == PartialLines(obs[..i]) && (seen <==> lines != [])
      invariant definite <==> exists j :: 0 <= j < i && Partial(obs[j]) && Definite(obs[j])
    {
      var passed, failed := AddressTally(obs[i]);
      assert obs[..i + 1][..i] == obs[..i];
      if passed != 0 && failed != 0 {
        seen := true;
        var more, def := FailedAddresses(obs[i]);
        lines := lines + ([TallyLine(obs[i].layer, passed, passed + failed)] + more);
        definite := definite || def;
      }
    }
    assert obs[..|obs|] == obs;
    out := if seen then [Finding(PartialAddressFailure, if definite then Confirmed else Likely, lines)] else [];
  }

  method Supporting(obs: seq<Observation>) returns (lines: seq<Line>)
    ensures lines == PassingLines(obs)
  {
    lines := [];
    for i := 0 to |obs|
      invariant lines == PassingLines(obs[..i])
    {
      assert obs[..i + 1][..i] == obs[..i];
      if obs[i].status == Pass { lines := lines + [ObservationLine(obs[i])]; }
    }
    assert obs[..|obs|] == obs;
  }

  /** Inference as one accumulating pass with its two early returns. */
  method InferFindings(state: Survey) returns (out: seq<Finding>)
    ensures out == InferFrom(state.observations)
  {
    hide Lines, Has, DnsRcode, TcpFailsEverywhere, TcpRefused, IPv6Part, TLSPart, UDPPart, QUICPart,
      HTTPPart, PartialPart, PassingLines, TcpPassAny;
    var obs := state.observations;
    if |obs| == 0 {
      EmptyFindsNothing();
      return [];
    }
    var dns := PickScan(obs, LayerDNS, NoFamily);
    if dns.Some? && dns.value.status != Pass {
      var rcode := DnsRcode(dns.value);
      return Found(DNSFailure, if rcode == "NXDOMAIN" || rcode == "SERVFAIL" then Confirmed else Likely, [dns]);
    }
    var tcp4 := PickScan(obs, LayerTCP, IPv4);
    var tcp6 := PickScan(obs, LayerTCP, IPv6);
    var allFailed := TcpAllFailedLoop(obs);
    if allFailed {
      var refused := TcpRefusedLoop(obs);
      return Found(TCPUnreachable, if refused then Confirmed else Likely, [tcp4, tcp6]);
    }
    out := IPv6Part(obs);
    var fams := [IPv4, IPv6];
    for i := 0 to 2
      invariant out == IPv6Part(obs) + (if i > 0 then TLSPart(obs, IPv4) else [])
                       + (if i > 1 then TLSPart(obs, IPv6) else [])
    {
      out := out + TLSPart(obs, fams[i]);
    }
    out := out + UDPPart(obs) + QUICPart(obs);
    ghost var base := out;
    for i := 0 to 2
      invariant out == base + (if i > 0 then HTTPPart(obs, IPv4) else []) + (if i > 1 then HTTPPart(obs, IPv6) else [])
    {
      out := out + HTTPPart(obs, fams[i]);
    }
    var partial := PartialFailures(obs);
    out := out + partial;
    assert out == Trouble(obs);
    var lines := Supporting(obs);
    if Passes(dns) && TcpPassAny(obs) && |out| == 0 && |lines| >= 3 {
      out := [Finding(PathHealthy, Confirmed, lines)];
    }
  }

  lemma EmptyFindsNothing()
    ensures InferFrom([]) == []
  {
    assert PartialLines([]) == [];
  }
}
