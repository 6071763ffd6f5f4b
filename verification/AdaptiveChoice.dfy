/** What the Adaptive policy's choice does not depend on, and where its TCP follow-up parts the
    selectors. */
module AdaptiveChoice {
  import opened Model
  import opened Selectors
  import opened Dedupe
  import opened Runs
  import opened Fast
  import opened Adaptive
  import opened AdaptiveRuns
  import opened Canonical
  import FastSequence
  import Sorting
  import opened Text

  // ---------------------------------------------------------------------------------------
  // The choice does not depend on the order in which candidates are listed

  ghost predicate TcpCandidate(t: Target, f: Family, s: Spec) {
    s.layer == LayerTCP ==>
      (s.family == f && s == TcpSpec(WithPort(t, 80), f)) || (s.family != f && s == TcpSpec(t, s.family))
  }

  lemma TcpCandidates(ident: Ident, prefer6: bool, t: Target, obs: seq<Observation>, c: Candidate)
    requires c in Candidates(ident, prefer6, t, obs)
    ensures var fams := Families(Latest(obs, LayerDNS, NoFamily).value, prefer6);
            TcpCandidate(t, if fams == [] then NoFamily else fams[0], c.exp.spec)
  {
    hide Keep, Latest, Families, FollowUps, DnsSpec, TcpCandidate;
    var dns := Latest(obs, LayerDNS, NoFamily);
    var fams := Families(dns.value, prefer6);
    if dns.value.status == Pass {
      if fams == [] {
        NoFollowUps(ident, t, obs);
      } else {
        TcpFollowUps(ident, t, obs, fams, c);
      }
    } else {
      KeptSpec(ident, obs, DnsSpec(t, ResolverPublic), ResolverAnomaly, c);
      NotTcp(t, if fams == [] then NoFamily else fams[0], c.exp.spec);
    }
  }

  lemma NotTcp(t: Target, f: Family, s: Spec)
    requires s.layer != LayerTCP
    ensures TcpCandidate(t, f, s)
  {
  }

  lemma KeptSpec(ident: Ident, obs: seq<Observation>, s: Spec, h: Hypothesis, c: Candidate)
    requires c in Keep(ident, obs, s, h) && Defaults(s) == s
    ensures c.exp.spec == s
  {
  }

  lemma NoFollowUps(ident: Ident, t: Target, obs: seq<Observation>)
    ensures FollowUps(ident, t, obs, []) == []
  {
    hide Keep;
  }

  lemma TcpFollowUps(ident: Ident, t: Target, obs: seq<Observation>, fams: seq<Family>, c: Candidate)
    requires fams == [IPv4] || fams == [IPv6] || fams == [IPv4, IPv6] || fams == [IPv6, IPv4]
    requires c in FollowUps(ident, t, obs, fams)
    ensures TcpCandidate(t, fams[0], c.exp.spec)
  {
    hide Keep, Latest, TlsParts, HttpParts, UdpSpec, TcpSpec, WithPort;
    if c in FamilyPart(ident, t, obs, fams) {
      KeptSpec(ident, obs, TcpSpec(t, fams[1]), FamilySpecific, c);
    } else if TcpAllFailed(obs, fams) {
      KeptSpec(ident, obs, TcpSpec(WithPort(t, 80), fams[0]), PortSpecific, c);
    } else if c in TlsParts(ident, t, obs, fams, fams) {
      TlsPartsLayer(ident, t, obs, fams, fams, c);
    } else if c in HttpParts(ident, t, obs, fams) {
      HttpPartsLayer(ident, t, obs, fams, c);
    } else {
      KeptSpec(ident, obs, UdpSpec(t, fams[0], 0), UDPBlocked, c);
    }
  }

  lemma {:induction false} TlsPartsLayer(ident: Ident, t: Target, obs: seq<Observation>, all: seq<Family>,
                                         fams: seq<Family>, c: Candidate)
    requires c in TlsParts(ident, t, obs, all, fams)
    ensures c.exp.spec.layer == LayerTLS
    decreases fams
  {
    hide Make, Latest, HasExperiment, TlsSpec;
    var f := fams[0];
    if c in TlsPart(ident, t, obs, all, f) {
      MadeSpec(ident, TlsSpec(t, Other(f), "", ""));
      MadeSpec(ident, TlsSpec(t, f, "", SNI_NONE));
      MadeSpec(ident, TlsSpec(t, f, H1, ""));
    } else {
      TlsPartsLayer(ident, t, obs, all, fams[1..], c);
    }
  }

  lemma {:induction false} HttpPartsLayer(ident: Ident, t: Target, obs: seq<Observation>, fams: seq<Family>, c: Candidate)
    requires c in HttpParts(ident, t, obs, fams)
    ensures c.exp.spec.layer == LayerHTTP
    decreases fams
  {
    hide Make, Latest, HasExperiment, HttpSpec;
    if c in HttpPart(ident, t, obs, fams[0]) {
      MadeSpec(ident, HttpSpec(t, fams[0], H1));
    } else {
      HttpPartsLayer(ident, t, obs, fams[1..], c);
    }
  }

  /** The host a target is probed at is free of the canonical form's separator. */
  predicate HostIsFree(t: Target) {
    Free('|', t.host) && (t.host == "" && t.url.Some? ==> Free('|', t.url.value.hostname))
  }

  lemma DefaultsSeparable(s: Spec)
    requires HostIsFree(s.target) && !s.layer.LayerOther? && !s.transport.TransportOther?
    requires s.alpn in ["", H1, H3] && s.sni in ["", SNI_NONE]
    ensures Separable(Defaults(s))
  {
  }

  lemma ConnectsSeparable(t: Target, f: Family)
    requires HostIsFree(t)
    ensures Separable(DnsSpec(t, ResolverSystem)) && Separable(DnsSpec(t, ResolverPublic)) && Separable(TcpSpec(t, f))
  {
    hide Separable, Defaults, HostIsFree;
    DefaultsSeparable(Spec(t, LayerDNS, FamilyAny, UDP, ResolverSystem, "", "", 0));
    DefaultsSeparable(Spec(t, LayerDNS, FamilyAny, UDP, ResolverPublic, "", "", 0));
    DefaultsSeparable(Spec(t, LayerTCP, f, TCP, NoResolver, "", "", 0));
  }

  lemma HandshakesSeparable(t: Target, f: Family)
    requires HostIsFree(t)
    ensures Separable(TlsSpec(t, f, "", "")) && Separable(TlsSpec(t, f, "", SNI_NONE)) && Separable(TlsSpec(t, f, H1, ""))
    ensures Separable(QuicSpec(t, f, "")) && Separable(UdpSpec(t, f, 0))
    ensures Separable(HttpSpec(t, f, "")) && Separable(HttpSpec(t, f, H1))
  {
    hide Separable, Defaults, HostIsFree;
    DefaultsSeparable(Spec(t, LayerTLS, f, TCP, NoResolver, "", "", 0));
    DefaultsSeparable(Spec(t, LayerTLS, f, TCP, NoResolver, "", SNI_NONE, 0));
    DefaultsSeparable(Spec(t, LayerTLS, f, TCP, NoResolver, H1, "", 0));
    DefaultsSeparable(Spec(t, LayerQUIC, f, QUIC, NoResolver, H3, "", 0));
    DefaultsSeparable(Spec(t, LayerUDP, f, UDP, NoResolver, "", "", 0));
    DefaultsSeparable(Spec(t, LayerHTTP, f, TCP, NoResolver, "", "", 0));
    DefaultsSeparable(Spec(t, LayerHTTP, f, TCP, NoResolver, H1, "", 0));
  }

  lemma UniverseSeparable(t: Target, s: Spec)
    requires s in Universe(t) && HostIsFree(t)
    ensures Separable(s)
  {
    hide Separable, DnsSpec, FamilySpecs, VariantSpecs, WithPort, HostIsFree, QuicSpec;
    assert HostIsFree(WithPort(t, 80)) by { OtherPortIsFree(t); }
    if s in FamilySpecs(t, IPv4) + VariantSpecs(t, IPv4) {
      FamilySeparable(t, IPv4, s);
    } else if s in FamilySpecs(t, IPv6) + VariantSpecs(t, IPv6) {
      FamilySeparable(t, IPv6, s);
    } else {
      ConnectsSeparable(t, IPv4);
    }
  }

  lemma FamilySeparable(t: Target, f: Family, s: Spec)
    requires HostIsFree(t) && HostIsFree(WithPort(t, 80)) && s in FamilySpecs(t, f) + VariantSpecs(t, f)
    ensures Separable(s)
  {
    hide Separable, DnsSpec, TcpSpec, TlsSpec, HttpSpec, UdpSpec, QuicSpec, WithPort, HostIsFree;
    ConnectsSeparable(t, f);
    ConnectsSeparable(WithPort(t, 80), f);
    HandshakesSeparable(t, f);
  }

  lemma OtherPortIsFree(t: Target)
    requires HostIsFree(t)
    ensures HostIsFree(WithPort(t, 80))
  {
  }

  lemma CandidateSeparable(ident: Ident, prefer6: bool, t: Target, obs: seq<Observation>, c: Candidate)
    requires c in Candidates(ident, prefer6, t, obs) && HostIsFree(t)
    ensures Separable(c.exp.spec)
  {
    hide Candidates, Universe, Separable, Normalize, HostIsFree;
    CandidateSound(ident, prefer6, t, obs, c);
    UniverseSeparable(t, c.exp.spec);
  }

  /** Candidates of one state with one canonical form are one experiment. */
  lemma CandidatesSeparate(ident: Ident, prefer6: bool, t: Target, obs: seq<Observation>, c: Candidate, d: Candidate)
    requires c in Candidates(ident, prefer6, t, obs) && d in Candidates(ident, prefer6, t, obs)
    requires HostIsFree(t)
    requires CanonicalForm(c.exp.spec) == CanonicalForm(d.exp.spec)
    ensures c.exp == d.exp
  {
    hide Candidates, CanonicalForm, Separable, Universe, HasExperiment, Normalize, Families, Latest, HasKey, TcpSpec, DnsSpec,
      TlsSpec, HttpSpec, UdpSpec, WithPort;
    CandidateSeparable(ident, prefer6, t, obs, c);
    CandidateSeparable(ident, prefer6, t, obs, d);
    CanonicalInjective(c.exp.spec, d.exp.spec);
    TcpCandidates(ident, prefer6, t, obs, c);
    TcpCandidates(ident, prefer6, t, obs, d);
    CandidateSound(ident, prefer6, t, obs, c);
    CandidateSound(ident, prefer6, t, obs, d);
    FollowUpDetermined(t, obs, c.exp.spec);
    FollowUpDetermined(t, obs, d.exp.spec);
    assert c.exp.spec.layer == d.exp.spec.layer by { FollowUpLayers(t, obs, c.exp.spec, d.exp.spec); }
  }

  /** Outside TCP, layer, family and variant determine a follow-up. */
  lemma FollowUpDetermined(t: Target, obs: seq<Observation>, s: Spec)
    requires IsFollowUp(t, obs, s)
    ensures !s.layer.LayerOther?
    ensures match s.layer
            case LayerTCP => true
            case LayerDNS => s == DnsSpec(t, ResolverPublic)
            case LayerTLS => s == TlsSpec(t, s.family, s.alpn, s.sni)
            case LayerUDP => s == UdpSpec(t, s.family, 0)
            case LayerHTTP => s == HttpSpec(t, s.family, s.alpn)
            case _ => false
  {
    hide HasKey, TcpSpec, DnsSpec, TlsSpec, HttpSpec, UdpSpec;
  }

  lemma FollowUpLayers(t: Target, obs: seq<Observation>, a: Spec, b: Spec)
    requires IsFollowUp(t, obs, a) && IsFollowUp(t, obs, b) && LayerName(a.layer) == LayerName(b.layer)
    ensures a.layer == b.layer
  {
    hide IsFollowUp, LayerName;
    FollowUpDetermined(t, obs, a);
    FollowUpDetermined(t, obs, b);
    LayerNamesInjective(a.layer, b.layer);
  }

  /** However the candidates of a state are listed, the same experiments are chosen. */
  lemma ChoiceIgnoresListing(ident: Ident, prefer6: bool, t: Target, obs: seq<Observation>,
                             listing: seq<Candidate>, budget: nat)
    requires multiset(listing) == multiset(Candidates(ident, prefer6, t, obs))
    requires HostIsFree(t)
    ensures Best(Ranked(obs, listing), budget) == Best(Ranked(obs, Candidates(ident, prefer6, t, obs)), budget)
  {
    hide Candidates, CanonicalForm, Separable, ScoreOf, Best;
    var cs := Candidates(ident, prefer6, t, obs);
    ByScoreThenForm();
    ScoredPermutation(obs, cs, listing);
    var scored := ScoreAll(obs, cs);
    forall a, b | a in scored && b in scored && !Before(a, b) && !Before(b, a) ensures a == b {
      var i :| 0 <= i < |cs| && scored[i] == a;
      var j :| 0 <= j < |cs| && scored[j] == b;
      ScoreKeepsExperiment(obs, cs[i]);
      ScoreKeepsExperiment(obs, cs[j]);
      TiesShareTheForm(a, b);
      assert cs[i] in cs && cs[j] in cs;
      CandidatesSeparate(ident, prefer6, t, obs, cs[i], cs[j]);
    }
    Sorting.SortOfPermutation(Before, scored, ScoreAll(obs, listing));
  }

  lemma TiesShareTheForm(a: Scored, b: Scored)
    requires !Before(a, b) && !Before(b, a)
    ensures a.score == b.score && CanonicalForm(a.exp.spec) == CanonicalForm(b.exp.spec)
  {
    hide CanonicalForm;
    Text.LessTotal(CanonicalForm(a.exp.spec), CanonicalForm(b.exp.spec));
  }

  lemma {:induction false} ScoredPermutation(obs: seq<Observation>, cs: seq<Candidate>, ds: seq<Candidate>)
    requires multiset(cs) == multiset(ds)
    ensures multiset(ScoreAll(obs, cs)) == multiset(ScoreAll(obs, ds))
    decreases |cs|
  {
    hide ScoreOf, ScoreAll;
    SizeOf(cs);
    SizeOf(ds);
    if |cs| > 0 {
      assert cs[0] in multiset(ds);
      var k :| 0 <= k < |ds| && ds[k] == cs[0];
      var fewer, others := cs[..0] + cs[0 + 1..], ds[..k] + ds[k + 1..];
      RemoveOne(cs, 0);
      RemoveOne(ds, k);
      assert multiset(fewer) == multiset(others);
      ScoredPermutation(obs, fewer, others);
      ScoreAllSplits(obs, cs, 0);
      ScoreAllSplits(obs, ds, k);
    } else {
      assert cs == [] && ds == [];
    }
  }

  lemma SizeOf<T>(xs: seq<T>)
    ensures |multiset(xs)| == |xs|
  {
  }

  lemma RemoveOne<T>(xs: seq<T>, k: nat)
    requires k < |xs|
    ensures multiset(xs[..k] + xs[k + 1..]) == multiset(xs) - multiset{xs[k]}
  {
    assert xs == xs[..k] + [xs[k]] + xs[k + 1..];
  }

  lemma ScoreAllSplits(obs: seq<Observation>, cs: seq<Candidate>, k: nat)
    requires k < |cs|
    ensures multiset(ScoreAll(obs, cs)) ==
            multiset(ScoreAll(obs, cs[..k] + cs[k + 1..])) + multiset{ScoreOf(obs, cs[k])}
  {
    hide ScoreOf;
    var a, b := ScoreAll(obs, cs[..k]), ScoreAll(obs, cs[k + 1..]);
    assert ScoreAll(obs, cs) == a + [ScoreOf(obs, cs[k])] + b;
    assert ScoreAll(obs, cs[..k] + cs[k + 1..]) == a + b;
  }

  // ---------------------------------------------------------------------------------------
  // TCP: where the follow-up on port 80 parts "first wins" from "canonical wins"

  /** When all matches are default variants with distinct IDs, "first wins" and "canonical
      wins" agree exactly if there is at most one match. */
  lemma AgreeIffSingle(obs: seq<Observation>, layer: Layer, family: Family)
    requires forall i :: 0 <= i < |obs| && Matches(obs[i], layer, family) ==> IsCanonical(obs[i].experiment.spec)
    requires forall i, j :: 0 <= i < j < |obs| ==> obs[i].experiment.id != obs[j].experiment.id
    ensures First(obs, layer, family) == Pick(obs, layer, family) <==>
            forall i, j :: 0 <= i < j < |obs| && Matches(obs[i], layer, family) ==> !Matches(obs[j], layer, family)
  {
    hide First, Pick, Latest, LatestCanonical, IsCanonical;
    FirstMeaning(obs, layer, family);
    LatestMeaning(obs, layer, family);
    PickMeaning(obs, layer, family);
  }

  /** On every state reachable under Adaptive, the selectors agree on TCP exactly if there is at
      most one match; on one family, exactly if the port-80 connect was not recorded beside the
      original one. */
  lemma AdaptiveTcpAgreement(ident: Ident, prefer6: bool, t: Target, runs: seq<Attempt>, family: Family)
    ensures var obs := Resumes(ident, AdaptivePolicy(ident, prefer6), Survey(Some(t), 0, [], []), runs).observations;
            First(obs, LayerTCP, family) == Pick(obs, LayerTCP, family) <==>
            forall i, j :: 0 <= i < j < |obs| && Matches(obs[i], LayerTCP, family) ==> !Matches(obs[j], LayerTCP, family)
    ensures family == IPv4 || family == IPv6 ==>
            var obs := Resumes(ident, AdaptivePolicy(ident, prefer6), Survey(Some(t), 0, [], []), runs).observations;
            First(obs, LayerTCP, family) == Pick(obs, LayerTCP, family) <==> !BothPorts(t, obs, family)
  {
    hide AdaptivePolicy, Resumes, Universe, Normalize, DefaultFirst, IsCanonical, First, Pick, BothPorts;
    var start := Survey(Some(t), 0, [], []);
    EmptyIsOrderly(ident, t);
    AdaptiveResumesKeepOrder(ident, prefer6, t, start, runs);
    ResumesAreSafe(ident, AdaptivePolicy(ident, prefer6), start, runs, CapOf(runs));
    var f := Resumes(ident, AdaptivePolicy(ident, prefer6), start, runs);
    var obs := f.observations;
    forall i | 0 <= i < |obs| && Matches(obs[i], LayerTCP, family)
      ensures IsCanonical(obs[i].experiment.spec)
    {
      assert obs[i] in obs;
      UniverseTcp(t, obs[i].experiment.spec);
    }
    forall i, j | 0 <= i < j < |obs| ensures obs[i].experiment.id != obs[j].experiment.id {
      assert NewlyRecorded(ident, obs, j);
    }
    AgreeIffSingle(obs, LayerTCP, family);
    if family == IPv4 || family == IPv6 { SingleIffOnePort(ident, t, f, family); }
  }

  /** Both connects of a family were recorded: to the target's port, and as a different
      experiment to port 80. */
  ghost predicate BothPorts(t: Target, obs: seq<Observation>, f: Family) {
    && TcpSpec(t, f) != TcpSpec(WithPort(t, 80), f)
    && TcpSpec(t, f) in Specs(obs) && TcpSpec(WithPort(t, 80), f) in Specs(obs)
  }

  lemma SingleIffOnePort(ident: Ident, t: Target, s: Survey, f: Family)
    requires Orderly(ident, t, s) && (f == IPv4 || f == IPv6)
    requires forall i, j :: 0 <= i < j < |s.observations| ==>
               s.observations[i].experiment.id != s.observations[j].experiment.id
    ensures (forall i, j :: 0 <= i < j < |s.observations| && Matches(s.observations[i], LayerTCP, f) ==>
               !Matches(s.observations[j], LayerTCP, f)) <==> !BothPorts(t, s.observations, f)
  {
    hide Orderly, BothPorts;
    var obs := s.observations;
    if BothPorts(t, obs, f) {
      var i, j := TwoConnects(ident, t, s, f);
    }
    if i, j :| 0 <= i < j < |obs| && Matches(obs[i], LayerTCP, f) && Matches(obs[j], LayerTCP, f) {
      TwoPorts(ident, t, s, f, i, j);
    }
  }

  lemma TwoConnects(ident: Ident, t: Target, s: Survey, f: Family) returns (i: nat, j: nat)
    requires Orderly(ident, t, s) && (f == IPv4 || f == IPv6) && BothPorts(t, s.observations, f)
    ensures i < j < |s.observations| && Matches(s.observations[i], LayerTCP, f) && Matches(s.observations[j], LayerTCP, f)
  {
    hide InUniverse, WithPort, DefaultFirst, TcpSpec;
    var obs := s.observations;
    var o :| o in obs && o.experiment.spec == TcpSpec(t, f);
    var p :| p in obs && p.experiment.spec == TcpSpec(WithPort(t, 80), f);
    i :| 0 <= i < |obs| && obs[i] == o;
    j :| 0 <= j < |obs| && obs[j] == p;
    if j < i { i, j := j, i; }
  }

  lemma TwoPorts(ident: Ident, t: Target, s: Survey, f: Family, i: nat, j: nat)
    requires Orderly(ident, t, s) && (f == IPv4 || f == IPv6) && i < j < |s.observations|
    requires s.observations[i].experiment.id != s.observations[j].experiment.id
    requires Matches(s.observations[i], LayerTCP, f) && Matches(s.observations[j], LayerTCP, f)
    ensures BothPorts(t, s.observations, f)
  {
    hide Universe, WithPort, Normalize, DefaultFirst, TcpSpec;
    var obs := s.observations;
    assert obs[i] in obs && obs[j] in obs;
    UniverseConnects(t, obs[i].experiment.spec);
    UniverseConnects(t, obs[j].experiment.spec);
    assert obs[i].experiment.spec in Specs(obs) && obs[j].experiment.spec in Specs(obs);
  }

  lemma UniverseConnects(t: Target, s: Spec)
    requires s in Universe(t) && s.layer == LayerTCP && (s.family == IPv4 || s.family == IPv6)
    ensures s == TcpSpec(t, s.family) || s == TcpSpec(WithPort(t, 80), s.family)
  {
    hide WithPort, Defaults, DnsSpec, TcpSpec, TlsSpec, HttpSpec, UdpSpec, QuicSpec;
  }

  lemma EmptyIsOrderly(ident: Ident, t: Target)
    ensures Orderly(ident, t, Survey(Some(t), 0, [], []))
  {
  }

  lemma UniverseTcp(t: Target, s: Spec)
    requires s in Universe(t) && s.layer == LayerTCP
    ensures IsCanonical(s)
  {
    hide WithPort, Defaults, DnsSpec, TcpSpec, TlsSpec, HttpSpec, UdpSpec, QuicSpec;
  }

  /** The disagreement does happen: whenever the tree is exhausted, every resolved family failed
      TCP and the port-80 connect is not recorded, Adaptive proposes exactly that connect, and
      recording it, with any outcome, makes "canonical wins" choose it over the first one. */
  lemma TcpFollowUpSplits(ident: Ident, prefer6: bool, t: Target, s: Survey, budget: nat, o: Observation)
    requires s.target == Some(t) && budget > 0
    requires PlanOf(ident, prefer6, s) == []
    requires Passes(Latest(s.observations, LayerDNS, NoFamily))
    requires var fams := Families(Latest(s.observations, LayerDNS, NoFamily).value, prefer6);
             TcpAllFailed(s.observations, fams)
             && !HasExperiment(s.observations, ident(TcpSpec(WithPort(t, 80), fams[0])))
             && o.layer == LayerTCP && o.experiment == Make(ident, TcpSpec(WithPort(t, 80), fams[0]))
    ensures var fam := Families(Latest(s.observations, LayerDNS, NoFamily).value, prefer6)[0];
            var after := s.observations + [o];
            && Propose(ident, prefer6, s, budget) == [o.experiment]
            && Pick(after, LayerTCP, fam) == Some(o)
            && First(after, LayerTCP, fam) != Some(o)
  {
    hide Plan, Latest, LatestCanonical, First, TcpSpec, WithPort, Make, HasExperiment, Families, IsCanonical;
    var obs := s.observations;
    var fams := Families(Latest(obs, LayerDNS, NoFamily).value, prefer6);
    var fam := fams[0];
    var spec := TcpSpec(WithPort(t, 80), fam);
    FamiliesAreFamilies(Latest(obs, LayerDNS, NoFamily).value, prefer6);
    MadeSpec(ident, spec);
    TcpDefault(WithPort(t, 80), fam);
    SelectorsAppend(obs, o, LayerTCP, fam);
    LatestMeaning(obs, LayerTCP, fam);
    assert Fails(Latest(obs, LayerTCP, fam)) && HasKey(obs, LayerTCP, fam);
    FirstMeaning(obs, LayerTCP, fam);
    var c := Candidate(o.experiment, [PortSpecific]);
    assert Candidates(ident, prefer6, t, obs) == [c];
    SingleChoice(ident, obs, c, budget);
    NotFirst(obs, o, fam);
  }

  lemma TcpDefault(t: Target, f: Family)
    ensures IsCanonical(TcpSpec(t, f))
  {
  }

  lemma NotFirst(obs: seq<Observation>, o: Observation, f: Family)
    requires !HasExperiment(obs, o.experiment.id) && o.experiment.id != "" && HasKey(obs, LayerTCP, f)
    ensures First(obs, LayerTCP, f) != Some(o)
  {
    hide First;
    FirstMeaning(obs, LayerTCP, f);
  }

  lemma SingleChoice(ident: Ident, obs: seq<Observation>, c: Candidate, budget: nat)
    requires budget > 0 && c.exp.id != "" && !HasExperiment(obs, c.exp.id) && Normalize(ident, c.exp) == c.exp
    ensures Fresh(ident, obs, {}, Best(Ranked(obs, [c]), budget), budget) == [c.exp]
  {
    hide ScoreOf, Normalize, HasExperiment;
    ScoreKeepsExperiment(obs, c);
    assert ScoreAll(obs, [c]) == [ScoreOf(obs, c)];
    var scored := [ScoreOf(obs, c)];
    assert scored[1..] == [] && Sorting.Sort(Before, scored[1..]) == [];
    assert Ranked(obs, [c]) == Sorting.Insert(Before, scored[0], []) == scored;
    assert Best(Ranked(obs, [c]), budget) == [c.exp];
    FreshKeeps(ident, obs, {}, [c.exp], budget);
  }

  // ---------------------------------------------------------------------------------------
  // Follow-ups answer failures

  /** The layer whose failure a hypothesis would explain. */
  function Suspect(h: Hypothesis, e: Experiment): Layer {
    match h
    case ResolverAnomaly => LayerDNS
    case PortSpecific => LayerTCP
    case SNIFiltering | ALPNInterference => LayerTLS
    case UDPBlocked => LayerQUIC
    case H2Broken => LayerHTTP
    case FamilySpecific => e.spec.layer
  }

  /** The latest observation of the layer, on some family, did not pass. */
  ghost predicate HasFailure(obs: seq<Observation>, layer: Layer) {
    exists f :: Fails(Latest(obs, layer, f))
  }

  ghost predicate Answers(obs: seq<Observation>, c: Candidate) {
    |c.hyps| == 1 && HasFailure(obs, Suspect(c.hyps[0], c.exp))
  }

  lemma KeptAnswers(ident: Ident, obs: seq<Observation>, s: Spec, h: Hypothesis, f: Family, c: Candidate)
    requires c in Keep(ident, obs, s, h) && Defaults(s) == s
    requires Fails(Latest(obs, Suspect(h, Make(ident, s)), f))
    ensures Answers(obs, c)
  {
    hide Latest, Make;
  }

  lemma TlsPartAnswers(ident: Ident, t: Target, obs: seq<Observation>, all: seq<Family>, f: Family, c: Candidate)
    requires c in TlsPart(ident, t, obs, all, f)
    ensures Answers(obs, c)
  {
    hide Latest, Keep, TlsSpec, Answers;
    if c in Keep(ident, obs, TlsSpec(t, f, "", SNI_NONE), SNIFiltering) {
      KeptAnswers(ident, obs, TlsSpec(t, f, "", SNI_NONE), SNIFiltering, f, c);
    } else if c in Keep(ident, obs, TlsSpec(t, f, H1, ""), ALPNInterference) {
      KeptAnswers(ident, obs, TlsSpec(t, f, H1, ""), ALPNInterference, f, c);
    } else {
      MadeSpec(ident, TlsSpec(t, Other(f), "", ""));
      KeptAnswers(ident, obs, TlsSpec(t, Other(f), "", ""), FamilySpecific, f, c);
    }
  }

  lemma {:induction false} PartsAnswer(ident: Ident, t: Target, obs: seq<Observation>, all: seq<Family>, fams: seq<Family>,
                                       c: Candidate)
    requires c in TlsParts(ident, t, obs, all, fams) || c in HttpParts(ident, t, obs, fams)
    ensures Answers(obs, c)
    decreases |fams|
  {
    hide Latest, Keep, HttpSpec, Answers, TlsPart;
    if c in TlsParts(ident, t, obs, all, fams) {
      if c in TlsPart(ident, t, obs, all, fams[0]) {
        TlsPartAnswers(ident, t, obs, all, fams[0], c);
      } else {
        PartsAnswer(ident, t, obs, all, fams[1..], c);
      }
    } else if c in HttpPart(ident, t, obs, fams[0]) {
      KeptAnswers(ident, obs, HttpSpec(t, fams[0], H1), H2Broken, fams[0], c);
    } else {
      PartsAnswer(ident, t, obs, all, fams[1..], c);
    }
  }

  /** Follow-ups are proposed only for failures: each candidate tests one hypothesis, and the
      layer that hypothesis is about has a family whose latest observation did not pass. */
  lemma FollowUpsAnswerFailures(ident: Ident, prefer6: bool, t: Target, obs: seq<Observation>, c: Candidate)
    requires c in Candidates(ident, prefer6, t, obs)
    ensures Answers(obs, c)
  {
    hide Latest, Keep, Answers, FollowUps, Families, DnsSpec;
    var dns := Latest(obs, LayerDNS, NoFamily);
    if dns.value.status != Pass {
      KeptAnswers(ident, obs, DnsSpec(t, ResolverPublic), ResolverAnomaly, NoFamily, c);
    } else {
      FollowUpAnswers(ident, t, obs, Families(dns.value, prefer6), c);
    }
  }

  lemma FollowUpAnswers(ident: Ident, t: Target, obs: seq<Observation>, fams: seq<Family>, c: Candidate)
    requires c in FollowUps(ident, t, obs, fams)
    ensures Answers(obs, c)
  {
    hide Latest, Keep, Answers, FamilyPart, TlsParts, HttpParts, UdpPart, WithPort, TcpSpec;
    if c in FamilyPart(ident, t, obs, fams) {
      FamilyPartAnswers(ident, t, obs, fams, c);
    } else if TcpAllFailed(obs, fams) {
      KeptAnswers(ident, obs, TcpSpec(WithPort(t, 80), fams[0]), PortSpecific, fams[0], c);
    } else if c in TlsParts(ident, t, obs, fams, fams) || c in HttpParts(ident, t, obs, fams) {
      PartsAnswer(ident, t, obs, fams, fams, c);
    } else {
      UdpPartAnswers(ident, t, obs, fams[0], c);
    }
  }

  lemma FamilyPartAnswers(ident: Ident, t: Target, obs: seq<Observation>, fams: seq<Family>, c: Candidate)
    requires c in FamilyPart(ident, t, obs, fams)
    ensures Answers(obs, c)
  {
    hide Latest, Keep, Answers, TcpSpec;
    MadeSpec(ident, TcpSpec(t, fams[1]));
    KeptAnswers(ident, obs, TcpSpec(t, fams[1]), FamilySpecific, fams[0], c);
  }

  lemma UdpPartAnswers(ident: Ident, t: Target, obs: seq<Observation>, f: Family, c: Candidate)
    requires c in UdpPart(ident, t, obs, f)
    ensures Answers(obs, c)
  {
    hide Latest, Keep, Answers, UdpSpec;
    KeptAnswers(ident, obs, UdpSpec(t, f, 0), UDPBlocked, f, c);
  }

  /** Where the latest observation of every layer and family passed, the policy is done as soon
      as the tree is exhausted. */
  lemma NothingFailedNothingMore(ident: Ident, prefer6: bool, t: Target, s: Survey)
    requires s.target == Some(t) && PlanOf(ident, prefer6, s) == []
    requires forall layer: Layer :: !HasFailure(s.observations, layer)
    ensures AdaptivePolicy(ident, prefer6).done(s)
  {
    hide PlanOf, Candidates, HasFailure;
    var cs := Candidates(ident, prefer6, t, s.observations);
    if cs != [] {
      FollowUpsAnswerFailures(ident, prefer6, t, s.observations, cs[0]);
    }
  }
}
