/** The Fast policy: the dependency tree DNS, TCP, TLS, HTTP with QUIC as a side branch. */
module Fast {
  import opened Model
  import opened Selectors
  import opened Dedupe
  import Runs

  function FirstEvidence(evidence: seq<Evidence>, kind: EvidenceKind): Option<Evidence> {
    if |evidence| == 0 then None
    else if evidence[0].kind == kind then Some(evidence[0])
    else FirstEvidence(evidence[1..], kind)
  }

  /** The first piece of evidence of a kind is at index `i`. */
  ghost predicate FirstAt(evidence: seq<Evidence>, kind: EvidenceKind, i: nat) {
    i < |evidence| && evidence[i].kind == kind && forall j :: 0 <= j < i ==> evidence[j].kind != kind
  }

  lemma {:induction false} FirstEvidenceMeaning(evidence: seq<Evidence>, kind: EvidenceKind)
    ensures match FirstEvidence(evidence, kind)
            case None => forall e :: e in evidence ==> e.kind != kind
            case Some(ev) => exists i: nat :: FirstAt(evidence, kind, i) && evidence[i] == ev
    ensures forall i: nat :: FirstAt(evidence, kind, i) ==> FirstEvidence(evidence, kind) == Some(evidence[i])
  {
    if |evidence| > 0 {
      var rest := evidence[1..];
      FirstEvidenceMeaning(rest, kind);
      if evidence[0].kind == kind {
        assert FirstAt(evidence, kind, 0);
      } else {
        forall i: nat ensures FirstAt(evidence, kind, i) <==> i > 0 && FirstAt(rest, kind, i - 1) {
          if i > 0 && FirstAt(rest, kind, i - 1) {
            assert forall j :: 0 < j <= i && j < |evidence| ==> evidence[j] == rest[j - 1];
          }
          if FirstAt(evidence, kind, i) {
            assert forall j :: 0 <= j < |rest| ==> rest[j] == evidence[j + 1];
          }
        }
        if FirstEvidence(rest, kind).Some? {
          var i: nat :| FirstAt(rest, kind, i) && rest[i] == FirstEvidence(evidence, kind).value;
          assert FirstAt(evidence, kind, i + 1);
        }
      }
    }
  }

  predicate Announces(values: map<string, Value>, key: string) {
    key in values && values[key].Texts? && |values[key].texts| > 0
  }

  /** IPv4/IPv6 presence in a passing DNS observation; without answer evidence, IPv4. */
  function ResolvedFamilies(dns: Observation): (bool, bool) {
    match FirstEvidence(dns.evidence, KindDNSAnswer)
    case None => (true, false)
    case Some(ev) => (Announces(ev.values, "v4"), Announces(ev.values, "v6"))
  }

  function OrderedFamilies(v4: bool, v6: bool, prefer6: bool): seq<Family> {
    var four, six := if v4 then [IPv4] else [], if v6 then [IPv6] else [];
    if prefer6 then six + four else four + six
  }

  function Families(dns: Observation, prefer6: bool): (fams: seq<Family>)
    ensures fams == [] || fams == [IPv4] || fams == [IPv6] || fams == [IPv4, IPv6] || fams == [IPv6, IPv4]
  {
    var (v4, v6) := ResolvedFamilies(dns);
    OrderedFamilies(v4, v6, prefer6)
  }

  predicate Passes(o: Option<Observation>) {
    o.Some? && o.value.status == Pass
  }

  function MissingTcp(ident: Ident, t: Target, obs: seq<Observation>, fams: seq<Family>): seq<Experiment> {
    if |fams| == 0 then []
    else (if Latest(obs, LayerTCP, fams[0]).None? then [Make(ident, TcpSpec(t, fams[0]))] else [])
         + MissingTcp(ident, t, obs, fams[1..])
  }

  function FirstTcpPass(obs: seq<Observation>, fams: seq<Family>): Option<Family> {
    if |fams| == 0 then None
    else if Passes(Latest(obs, LayerTCP, fams[0])) then Some(fams[0])
    else FirstTcpPass(obs, fams[1..])
  }

  function QuicBranch(ident: Ident, t: Target, obs: seq<Observation>, fam: Family): seq<Experiment> {
    if t.IsHTTPS() && Latest(obs, LayerQUIC, fam).None? then [Make(ident, QuicSpec(t, fam, ""))] else []
  }

  /** TLS after a TCP pass, HTTP after a TLS pass; a plain HTTP target has no TLS step. */
  function AppBranch(ident: Ident, t: Target, obs: seq<Observation>, fam: Family): seq<Experiment> {
    if t.IsHTTPS() && Latest(obs, LayerTLS, fam).None? then [Make(ident, TlsSpec(t, fam, "", ""))]
    else if (!t.IsHTTPS() || Passes(Latest(obs, LayerTLS, fam))) && Latest(obs, LayerHTTP, fam).None?
    then [Make(ident, HttpSpec(t, fam, ""))]
    else []
  }

  /** Every experiment the tree would run next, in order. */
  function Plan(ident: Ident, prefer6: bool, t: Target, obs: seq<Observation>): seq<Experiment> {
    match Latest(obs, LayerDNS, NoFamily)
    case None => [Make(ident, DnsSpec(t, ResolverSystem))]
    case Some(dns) =>
      if dns.status != Pass then [] else Tree(ident, t, obs, Families(dns, prefer6))
  }

  function Tree(ident: Ident, t: Target, obs: seq<Observation>, fams: seq<Family>): seq<Experiment> {
    if |fams| == 0 then []
    else
      var pass := FirstTcpPass(obs, fams);
      MissingTcp(ident, t, obs, fams) + QuicBranch(ident, t, obs, fams[0])
      + if pass.Some? then AppBranch(ident, t, obs, pass.value) else []
  }

  function PlanOf(ident: Ident, prefer6: bool, s: Survey): seq<Experiment> {
    if s.target.None? then [] else Plan(ident, prefer6, s.target.value, s.observations)
  }

  function FastPolicy(ident: Ident, prefer6: bool): Runs.Policy {
    Runs.Policy(
      (s: Survey) => PlanOf(ident, prefer6, s) == [],
      (s: Survey, budget: nat) =>
        Runs.Success(Fresh(ident, s.observations, {}, PlanOf(ident, prefer6, s), budget)))
  }

  /** Everything the tree can ever propose for a target. */
  ghost function FamilySpecs(t: Target, f: Family): set<Spec> {
    {TcpSpec(t, f), QuicSpec(t, f, ""), TlsSpec(t, f, "", ""), HttpSpec(t, f, "")}
  }

  ghost function FastSpecs(t: Target): set<Spec> {
    {DnsSpec(t, ResolverSystem)} + FamilySpecs(t, IPv4) + FamilySpecs(t, IPv6)
  }

  /** The loop over the resolved families. */
  method ScanTcp(ident: Ident, t: Target, obs: seq<Observation>, fams: seq<Family>)
    returns (missing: seq<Experiment>, tcpPass: Option<Family>)
    ensures missing == MissingTcp(ident, t, obs, fams)
    ensures tcpPass == FirstTcpPass(obs, fams)
  {
    hide Make, TcpSpec, MissingTcp, FirstTcpPass, Latest;
    missing, tcpPass := [], None;
    var i := 0;
    assert fams[0..] == fams;
    while i < |fams|
      invariant 0 <= i <= |fams|
      invariant missing + MissingTcp(ident, t, obs, fams[i..]) == MissingTcp(ident, t, obs, fams)
      invariant FirstTcpPass(obs, fams) == if tcpPass.Some? then tcpPass else FirstTcpPass(obs, fams[i..])
    {
      ScanStep(ident, t, obs, fams, i);
      var tcp := LatestScan(obs, LayerTCP, fams[i]);
      if tcp.None? {
        missing := missing + [Make(ident, TcpSpec(t, fams[i]))];
      } else if tcp.value.status == Pass && tcpPass.None? {
        tcpPass := Some(fams[i]);
      }
      i := i + 1;
    }
    ScanEnds(ident, t, obs, fams[i..]);
  }

  lemma ScanStep(ident: Ident, t: Target, obs: seq<Observation>, fams: seq<Family>, i: nat)
    requires i < |fams|
    ensures MissingTcp(ident, t, obs, fams[i..]) ==
            (if Latest(obs, LayerTCP, fams[i]).None? then [Make(ident, TcpSpec(t, fams[i]))] else [])
            + MissingTcp(ident, t, obs, fams[i + 1..])
    ensures FirstTcpPass(obs, fams[i..]) ==
            if Passes(Latest(obs, LayerTCP, fams[i])) then Some(fams[i]) else FirstTcpPass(obs, fams[i + 1..])
  {
    hide Make, TcpSpec, Latest;
    assert fams[i..][0] == fams[i] && fams[i..][1..] == fams[i + 1..];
  }

  lemma ScanEnds(ident: Ident, t: Target, obs: seq<Observation>, fams: seq<Family>)
    requires fams == []
    ensures MissingTcp(ident, t, obs, fams) == [] && FirstTcpPass(obs, fams) == None
  {
  }

  /** The plan, built step by step. */
  method BuildPlan(ident: Ident, prefer6: bool, state: Survey) returns (out: seq<Experiment>)
    ensures out == PlanOf(ident, prefer6, state)
  {
    hide Make, DnsSpec, TcpSpec, TlsSpec, QuicSpec, HttpSpec, Latest, MissingTcp, FirstTcpPass, Families;
    if state.target.None? { return []; }
    var t, obs := state.target.value, state.observations;
    var dns := LatestScan(obs, LayerDNS, NoFamily);
    if dns.None? { return [Make(ident, DnsSpec(t, ResolverSystem))]; }
    if dns.value.status != Pass { return []; }
    var fams := Families(dns.value, prefer6);
    if |fams| == 0 { return []; }
    var tcpPass: Option<Family>;
    out, tcpPass := ScanTcp(ident, t, obs, fams);
    if t.IsHTTPS() {
      var quic := LatestScan(obs, LayerQUIC, fams[0]);
      if quic.None? { out := out + [Make(ident, QuicSpec(t, fams[0], ""))]; }
    }
    if tcpPass.Some? {
      var fam := tcpPass.value;
      var http := LatestScan(obs, LayerHTTP, fam);
      if t.IsHTTPS() {
        var tls := LatestScan(obs, LayerTLS, fam);
        if tls.None? {
          out := out + [Make(ident, TlsSpec(t, fam, "", ""))];
        } else if tls.value.status == Pass && http.None? {
          out := out + [Make(ident, HttpSpec(t, fam, ""))];
        }
      } else if http.None? {
        out := out + [Make(ident, HttpSpec(t, fam, ""))];
      }
    }
  }
}
