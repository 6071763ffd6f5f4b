/** The Adaptive policy: the Fast tree first, then the experiments that best separate the
    hypotheses left open by a failure. */
module Adaptive {
  import opened Model
  import opened Selectors
  import opened Dedupe
  import opened Fast
  import opened Canonical
  import Runs
  import Sorting
  import Text

  datatype Hypothesis =
    | ResolverAnomaly | FamilySpecific | SNIFiltering | ALPNInterference
    | PortSpecific | UDPBlocked | H2Broken

  datatype Candidate = Candidate(exp: Experiment, hyps: seq<Hypothesis>)

  /** The same target on another port. net.JoinHostPort brackets a host that contains a colon, as
      the target's own text does. */
  function WithPort(t: Target, port: nat): Target {
    var url := if t.url.None? then None
               else Some(t.url.value.(host := JoinHostPort(t.host, port), hostname := t.host));
    Target(url, t.host, port)
  }

  function Other(f: Family): Family { if f == IPv4 then IPv6 else IPv4 }

  /** A candidate unless it is already recorded. */
  function Keep(ident: Ident, obs: seq<Observation>, s: Spec, h: Hypothesis): seq<Candidate> {
    var e := Make(ident, s);
    if HasExperiment(obs, e.id) then [] else [Candidate(e, [h])]
  }

  predicate Fails(o: Option<Observation>) {
    o.Some? && o.value.status != Pass
  }

  predicate PublicDnsRecorded(obs: seq<Observation>) {
    exists i :: 0 <= i < |obs| && obs[i].experiment.spec.layer == LayerDNS
                && obs[i].experiment.spec.resolver == ResolverPublic
  }

  function FamilyPart(ident: Ident, t: Target, obs: seq<Observation>, fams: seq<Family>): seq<Candidate> {
    if |fams| > 1 && Fails(Latest(obs, LayerTCP, fams[0])) && Latest(obs, LayerTCP, fams[1]).None?
    then Keep(ident, obs, TcpSpec(t, fams[1]), FamilySpecific) else []
  }

  /** Whether TCP passes on some family before the first family without a TCP observation. */
  predicate TcpAnyPass(obs: seq<Observation>, fams: seq<Family>) {
    |fams| > 0 && Latest(obs, LayerTCP, fams[0]).Some? &&
    (Passes(Latest(obs, LayerTCP, fams[0])) || TcpAnyPass(obs, fams[1..]))
  }

  predicate TcpAllFailed(obs: seq<Observation>, fams: seq<Family>) {
    |fams| > 0 && forall i :: 0 <= i < |fams| ==> Fails(Latest(obs, LayerTCP, fams[i]))
  }

  /** TLS failed while TCP passed: the other family, no server name, one ALPN. */
  function TlsPart(ident: Ident, t: Target, obs: seq<Observation>, fams: seq<Family>, f: Family): seq<Candidate> {
    if !Passes(Latest(obs, LayerTCP, f)) || !Fails(Latest(obs, LayerTLS, f)) then []
    else
      (if Latest(obs, LayerTLS, Other(f)).None? && Other(f) in fams
       then Keep(ident, obs, TlsSpec(t, Other(f), "", ""), FamilySpecific) else [])
      + Keep(ident, obs, TlsSpec(t, f, "", SNI_NONE), SNIFiltering)
      + Keep(ident, obs, TlsSpec(t, f, H1, ""), ALPNInterference)
  }

  function TlsParts(ident: Ident, t: Target, obs: seq<Observation>, all: seq<Family>, fams: seq<Family>): seq<Candidate> {
    if |fams| == 0 then []
    else TlsPart(ident, t, obs, all, fams[0]) + TlsParts(ident, t, obs, all, fams[1..])
  }

  function UdpPart(ident: Ident, t: Target, obs: seq<Observation>, f: Family): seq<Candidate> {
    if Fails(Latest(obs, LayerQUIC, f)) then Keep(ident, obs, UdpSpec(t, f, 0), UDPBlocked) else []
  }

  function HttpPart(ident: Ident, t: Target, obs: seq<Observation>, f: Family): seq<Candidate> {
    if (!t.IsHTTPS() || Passes(Latest(obs, LayerTLS, f))) && Fails(Latest(obs, LayerHTTP, f))
    then Keep(ident, obs, HttpSpec(t, f, H1), H2Broken) else []
  }

  function HttpParts(ident: Ident, t: Target, obs: seq<Observation>, fams: seq<Family>): seq<Candidate> {
    if |fams| == 0 then []
    else HttpPart(ident, t, obs, fams[0]) + HttpParts(ident, t, obs, fams[1..])
  }

  /** The follow-ups for a passing DNS observation. */
  function FollowUps(ident: Ident, t: Target, obs: seq<Observation>, fams: seq<Family>): seq<Candidate> {
    FamilyPart(ident, t, obs, fams)
    + if TcpAllFailed(obs, fams) then Keep(ident, obs, TcpSpec(WithPort(t, 80), fams[0]), PortSpecific)
      else if !TcpAnyPass(obs, fams) then []
      else (if t.IsHTTPS() then TlsParts(ident, t, obs, fams, fams) + UdpPart(ident, t, obs, fams[0]) else [])
           + HttpParts(ident, t, obs, fams)
  }

  /** The follow-up experiments that could resolve an unexplained failure, in a fixed order. */
  function Candidates(ident: Ident, prefer6: bool, t: Target, obs: seq<Observation>): seq<Candidate> {
    match Latest(obs, LayerDNS, NoFamily)
    case None => []
    case Some(dns) =>
      if dns.status == Pass then FollowUps(ident, t, obs, Families(dns, prefer6))
      else if PublicDnsRecorded(obs) then []
      else Keep(ident, obs, DnsSpec(t, ResolverPublic), ResolverAnomaly)
  }

  function CandidatesOf(ident: Ident, prefer6: bool, s: Survey): seq<Candidate> {
    if s.target.None? then [] else Candidates(ident, prefer6, s.target.value, s.observations)
  }

  datatype Scored = Scored(exp: Experiment, score: int)

  function CostOf(e: Experiment): int {
    match e.spec.layer
    case LayerTLS | LayerHTTP => 2
    case LayerQUIC => 3
    case _ => 1
  }

  function ScoreOf(obs: seq<Observation>, c: Candidate): Scored {
    var penalty := if HasExperiment(obs, c.exp.id) then 1000 else 0;
    Scored(c.exp, |c.hyps| * 10 - CostOf(c.exp) - penalty)
  }

  /** Higher scores first, ties by canonical form. */
  predicate Before(a: Scored, b: Scored) {
    if a.score != b.score then a.score > b.score
    else Text.Less(CanonicalForm(a.exp.spec), CanonicalForm(b.exp.spec))
  }

  function ScoreAll(obs: seq<Observation>, cs: seq<Candidate>): seq<Scored> {
    seq(|cs|, i requires 0 <= i < |cs| => ScoreOf(obs, cs[i]))
  }

  function Ranked(obs: seq<Observation>, cs: seq<Candidate>): seq<Scored> {
    Sorting.Sort(Before, ScoreAll(obs, cs))
  }

  function ExpsOf(scored: seq<Scored>): seq<Experiment> {
    seq(|scored|, i requires 0 <= i < |scored| => scored[i].exp)
  }

  function Best(scored: seq<Scored>, budget: nat): seq<Experiment> {
    var take := if budget < 2 then budget else 2;
    ExpsOf(scored[..if |scored| < take then |scored| else take])
  }

  function Propose(ident: Ident, prefer6: bool, s: Survey, budget: nat): seq<Experiment> {
    var tree := Fresh(ident, s.observations, {}, PlanOf(ident, prefer6, s), budget);
    if tree != [] then tree
    else Fresh(ident, s.observations, {}, Best(Ranked(s.observations, CandidatesOf(ident, prefer6, s)), budget), budget)
  }

  function AdaptivePolicy(ident: Ident, prefer6: bool): Runs.Policy {
    Runs.Policy(
      (s: Survey) => PlanOf(ident, prefer6, s) == [] && CandidatesOf(ident, prefer6, s) == [],
      (s: Survey, budget: nat) => Runs.Success(Propose(ident, prefer6, s, budget)))
  }

  // ---------------------------------------------------------------------------------------
  // The loops

  method ScanTcpVerdicts(obs: seq<Observation>, fams: seq<Family>) returns (anyPass: bool, allFailed: bool)
    ensures anyPass == TcpAnyPass(obs, fams) && allFailed == TcpAllFailed(obs, fams)
  {
    anyPass, allFailed := false, |fams| > 0;
    var i := 0;
    while i < |fams|
      invariant 0 <= i <= |fams|
      invariant TcpAnyPass(obs, fams) == (anyPass || TcpAnyPass(obs, fams[i..]))
      invariant allFailed <==> |fams| > 0 && forall j :: 0 <= j < i ==> Fails(Latest(obs, LayerTCP, fams[j]))
    {
      assert fams[i..][0] == fams[i] && fams[i..][1..] == fams[i + 1..];
      var tcp := LatestScan(obs, LayerTCP, fams[i]);
      if tcp.None? {
        allFailed := false;
        return;
      }
      if tcp.value.status == Pass {
        anyPass, allFailed := true, false;
      }
      i := i + 1;
    }
  }

  method BuildTlsParts(ident: Ident, t: Target, obs: seq<Observation>, fams: seq<Family>) returns (out: seq<Candidate>)
    ensures out == TlsParts(ident, t, obs, fams, fams)
  {
    hide TlsPart;
    out := [];
    var i := 0;
    while i < |fams|
      invariant 0 <= i <= |fams|
      invariant out + TlsParts(ident, t, obs, fams, fams[i..]) == TlsParts(ident, t, obs, fams, fams)
    {
      assert fams[i..][0] == fams[i] && fams[i..][1..] == fams[i + 1..];
      ghost var rest := TlsParts(ident, t, obs, fams, fams[i + 1..]);
      var part := TlsPart(ident, t, obs, fams, fams[i]);
      assert out + (part + rest) == (out + part) + rest;
      out := out + part;
      i := i + 1;
    }
  }

  method BuildHttpParts(ident: Ident, t: Target, obs: seq<Observation>, fams: seq<Family>) returns (out: seq<Candidate>)
    ensures out == HttpParts(ident, t, obs, fams)
  {
    hide HttpPart;
    out := [];
    var i := 0;
    while i < |fams|
      invariant 0 <= i <= |fams|
      invariant out + HttpParts(ident, t, obs, fams[i..]) == HttpParts(ident, t, obs, fams)
    {
      assert fams[i..][0] == fams[i] && fams[i..][1..] == fams[i + 1..];
      ghost var rest := HttpParts(ident, t, obs, fams[i + 1..]);
      var part := HttpPart(ident, t, obs, fams[i]);
      assert out + (part + rest) == (out + part) + rest;
      out := out + part;
      i := i + 1;
    }
  }

  /** The candidates, appended step by step with their early returns. */
  method BuildCandidates(ident: Ident, prefer6: bool, state: Survey) returns (out: seq<Candidate>)
    ensures out == CandidatesOf(ident, prefer6, state)
  {
    hide Keep, TlsParts, HttpParts, Families, Latest;
    if state.target.None? { return []; }
    var t, obs := state.target.value, state.observations;
    var dns := LatestScan(obs, LayerDNS, NoFamily);
    if dns.None? { return []; }
    if dns.value.status != Pass {
      if PublicDnsRecorded(obs) { return []; }
      return Keep(ident, obs, DnsSpec(t, ResolverPublic), ResolverAnomaly);
    }
    var fams := Families(dns.value, prefer6);
    out := FamilyPart(ident, t, obs, fams);
    var anyPass, allFailed := ScanTcpVerdicts(obs, fams);
    if allFailed {
      out := out + Keep(ident, obs, TcpSpec(WithPort(t, 80), fams[0]), PortSpecific);
      return;
    }
    if anyPass {
      if t.IsHTTPS() {
        var tls := BuildTlsParts(ident, t, obs, fams);
        out := out + tls + UdpPart(ident, t, obs, fams[0]);
      }
      var http := BuildHttpParts(ident, t, obs, fams);
      out := out + http;
    }
  }

  method ScoreCandidates(ident: Ident, prefer6: bool, state: Survey) returns (scored: seq<Scored>)
    ensures scored == Ranked(state.observations, CandidatesOf(ident, prefer6, state))
  {
    var cs := BuildCandidates(ident, prefer6, state);
    hide Candidates, ScoreOf, Before;
    scored := [];
    for i := 0 to |cs|
      invariant scored == ScoreAll(state.observations, cs[..i])
    {
      scored := scored + [ScoreOf(state.observations, cs[i])];
    }
    assert cs[..|cs|] == cs;
    scored := Sorting.Sort(Before, scored);
  }

  /** One proposal: the tree while it lasts, then the two best-ranked candidates. */
  method ProposeLoop(ident: Ident, prefer6: bool, state: Survey, budget: nat) returns (out: seq<Experiment>)
    ensures out == Propose(ident, prefer6, state, budget)
  {
    hide PlanOf, CandidatesOf, Ranked, Fresh;
    var plan := BuildPlan(ident, prefer6, state);
    out := DedupeAndCap(ident, state, plan, budget);
    if |out| > 0 { return; }
    var scored := ScoreCandidates(ident, prefer6, state);
    var take := if budget < 2 then budget else 2;
    var best: seq<Experiment> := [];
    var i := 0;
    while i < |scored| && |best| < take
      invariant 0 <= i <= |scored| && i <= take
      invariant best == ExpsOf(scored[..i])
    {
      best := best + [scored[i].exp];
      i := i + 1;
    }
    out := DedupeAndCap(ident, state, best, budget);
  }
}
