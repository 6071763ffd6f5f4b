/** Whole runs of the Adaptive policy, for any outcomes: termination, and agreement of the
    selectors. */
module AdaptiveRuns {
  import opened Model
  import opened Selectors
  import opened Dedupe
  import opened Runs
  import opened Fast
  import opened FastRuns
  import opened Adaptive
  import Sorting
  import opened Canonical
  import Text

  // ---------------------------------------------------------------------------------------
  // The universe of proposals

  ghost function VariantSpecs(t: Target, f: Family): set<Spec> {
    {TcpSpec(WithPort(t, 80), f), TlsSpec(t, f, "", SNI_NONE), TlsSpec(t, f, H1, ""),
     UdpSpec(t, f, 0), HttpSpec(t, f, H1)}
  }

  /** Everything the policy can ever propose for a target. */
  ghost function Universe(t: Target): set<Spec> {
    FastSpecs(t) + {DnsSpec(t, ResolverPublic)} + VariantSpecs(t, IPv4) + VariantSpecs(t, IPv6)
  }

  lemma UniverseIsSmall(t: Target)
    ensures |Universe(t)| <= 20
  {
    hide DnsSpec, TcpSpec, TlsSpec, HttpSpec, UdpSpec, QuicSpec, WithPort;
    assert |FamilySpecs(t, IPv4)| <= 4 && |FamilySpecs(t, IPv6)| <= 4;
    assert |VariantSpecs(t, IPv4)| <= 5 && |VariantSpecs(t, IPv6)| <= 5;
    assert |FastSpecs(t)| <= 9;
  }

  ghost predicate InUniverse(ident: Ident, t: Target, e: Experiment) {
    e.spec in Universe(t) && e.id == ident(e.spec) && Normalize(ident, e) == e
  }

  lemma MadeInUniverse(ident: Ident, t: Target, s: Spec)
    requires s in Universe(t)
    ensures Make(ident, s).spec == s && InUniverse(ident, t, Make(ident, s))
  {
    hide Defaults, DnsSpec, TcpSpec, TlsSpec, HttpSpec, UdpSpec, QuicSpec, WithPort;
    assert Defaults(s) == s;
  }

  lemma KeptInUniverse(ident: Ident, t: Target, obs: seq<Observation>, s: Spec, h: Hypothesis, c: Candidate)
    requires s in Universe(t) && c in Keep(ident, obs, s, h)
    ensures c.exp.spec == s && InUniverse(ident, t, c.exp) && !HasExperiment(obs, c.exp.id)
  {
    hide Universe, Make;
    MadeInUniverse(ident, t, s);
  }

  lemma UniverseMembers(t: Target, f: Family)
    requires f == IPv4 || f == IPv6
    ensures TcpSpec(t, f) in Universe(t) && TcpSpec(WithPort(t, 80), f) in Universe(t)
    ensures TlsSpec(t, f, "", "") in Universe(t) && TlsSpec(t, f, "", SNI_NONE) in Universe(t)
    ensures TlsSpec(t, f, H1, "") in Universe(t) && UdpSpec(t, f, 0) in Universe(t)
    ensures HttpSpec(t, f, H1) in Universe(t) && DnsSpec(t, ResolverPublic) in Universe(t)
  {
    hide DnsSpec, TcpSpec, TlsSpec, HttpSpec, UdpSpec, QuicSpec, WithPort;
  }

  ghost predicate IpFamilies(fams: seq<Family>) {
    forall i :: 0 <= i < |fams| ==> fams[i] == IPv4 || fams[i] == IPv6
  }

  /** What a candidate is, and the record it is proposed on. */
  ghost predicate IsFollowUp(t: Target, obs: seq<Observation>, s: Spec) {
    || s.layer == LayerTCP
    || (s == DnsSpec(t, ResolverPublic) && HasKey(obs, LayerDNS, NoFamily))
    || (exists f :: (f == IPv4 || f == IPv6) && FollowUpOn(t, obs, f, s))
  }

  ghost predicate FollowUpOn(t: Target, obs: seq<Observation>, f: Family, s: Spec) {
    || (s == TlsSpec(t, f, "", "") && !HasKey(obs, LayerTLS, f))
    || (s == TlsSpec(t, f, "", SNI_NONE) && HasKey(obs, LayerTLS, f))
    || (s == TlsSpec(t, f, H1, "") && HasKey(obs, LayerTLS, f))
    || s == UdpSpec(t, f, 0)
    || (s == HttpSpec(t, f, H1) && HasKey(obs, LayerHTTP, f))
  }

  lemma OnFamily(t: Target, obs: seq<Observation>, f: Family, s: Spec)
    requires (f == IPv4 || f == IPv6) && FollowUpOn(t, obs, f, s)
    ensures IsFollowUp(t, obs, s)
  {
  }

  ghost predicate Sound(ident: Ident, t: Target, obs: seq<Observation>, c: Candidate) {
    InUniverse(ident, t, c.exp) && !HasExperiment(obs, c.exp.id) && IsFollowUp(t, obs, c.exp.spec)
  }

  lemma TlsPartSound(ident: Ident, t: Target, obs: seq<Observation>, fams: seq<Family>, f: Family, c: Candidate)
    requires (f == IPv4 || f == IPv6) && c in TlsPart(ident, t, obs, fams, f)
    ensures Sound(ident, t, obs, c)
  {
    hide Universe, Keep, InUniverse, Latest, TlsSpec, HasExperiment, IsFollowUp, HasKey;
    var g := Other(f);
    UniverseMembers(t, f);
    UniverseMembers(t, g);
    LatestMeaning(obs, LayerTLS, f);
    LatestMeaning(obs, LayerTLS, g);
    LatestHasKey(obs, LayerTLS, f);
    if c in Keep(ident, obs, TlsSpec(t, f, "", SNI_NONE), SNIFiltering) {
      KeptInUniverse(ident, t, obs, TlsSpec(t, f, "", SNI_NONE), SNIFiltering, c);
      OnFamily(t, obs, f, TlsSpec(t, f, "", SNI_NONE));
    } else if c in Keep(ident, obs, TlsSpec(t, f, H1, ""), ALPNInterference) {
      KeptInUniverse(ident, t, obs, TlsSpec(t, f, H1, ""), ALPNInterference, c);
      OnFamily(t, obs, f, TlsSpec(t, f, H1, ""));
    } else {
      KeptInUniverse(ident, t, obs, TlsSpec(t, g, "", ""), FamilySpecific, c);
      OnFamily(t, obs, g, TlsSpec(t, g, "", ""));
    }
  }

  lemma LatestHasKey(obs: seq<Observation>, layer: Layer, f: Family)
    requires Latest(obs, layer, f).Some?
    ensures HasKey(obs, layer, f)
  {
    hide Latest;
    LatestMeaning(obs, layer, f);
  }

  lemma {:induction false} TlsPartsSound(ident: Ident, t: Target, obs: seq<Observation>, all: seq<Family>,
                                         fams: seq<Family>, c: Candidate)
    requires IpFamilies(fams)
    requires c in TlsParts(ident, t, obs, all, fams)
    ensures Sound(ident, t, obs, c)
    decreases fams
  {
    hide TlsPart, Sound;
    if c in TlsPart(ident, t, obs, all, fams[0]) {
      TlsPartSound(ident, t, obs, all, fams[0], c);
    } else {
      TlsPartsSound(ident, t, obs, all, fams[1..], c);
    }
  }

  lemma {:induction false} HttpPartsSound(ident: Ident, t: Target, obs: seq<Observation>, fams: seq<Family>, c: Candidate)
    requires IpFamilies(fams)
    requires c in HttpParts(ident, t, obs, fams)
    ensures Sound(ident, t, obs, c)
    decreases fams
  {
    hide Universe, Keep, InUniverse, Latest, HttpSpec, HasExperiment, IsFollowUp, HasKey;
    var f := fams[0];
    if c in HttpPart(ident, t, obs, f) {
      UniverseMembers(t, f);
      LatestHasKey(obs, LayerHTTP, f);
      KeptInUniverse(ident, t, obs, HttpSpec(t, f, H1), H2Broken, c);
      OnFamily(t, obs, f, HttpSpec(t, f, H1));
    } else {
      HttpPartsSound(ident, t, obs, fams[1..], c);
    }
  }

  lemma CandidateSound(ident: Ident, prefer6: bool, t: Target, obs: seq<Observation>, c: Candidate)
    requires c in Candidates(ident, prefer6, t, obs)
    ensures Sound(ident, t, obs, c)
  {
    hide Universe, Keep, InUniverse, Latest, HasExperiment, TlsParts, HttpParts, IsFollowUp, FollowUps, Families, DnsSpec;
    var dns := Latest(obs, LayerDNS, NoFamily);
    if dns.value.status == Pass {
      FamiliesAreFamilies(dns.value, prefer6);
      FollowUpSound(ident, t, obs, Families(dns.value, prefer6), c);
    } else {
      LatestMeaning(obs, LayerDNS, NoFamily);
      UniverseMembers(t, IPv4);
      KeptInUniverse(ident, t, obs, DnsSpec(t, ResolverPublic), ResolverAnomaly, c);
      assert IsFollowUp(t, obs, DnsSpec(t, ResolverPublic)) by { DnsFollowUp(t, obs); }
    }
  }

  lemma DnsFollowUp(t: Target, obs: seq<Observation>)
    requires HasKey(obs, LayerDNS, NoFamily)
    ensures IsFollowUp(t, obs, DnsSpec(t, ResolverPublic))
  {
  }

  lemma FamiliesAreFamilies(dns: Observation, prefer6: bool)
    ensures IpFamilies(Families(dns, prefer6))
  {
  }

  lemma FollowUpSound(ident: Ident, t: Target, obs: seq<Observation>, fams: seq<Family>, c: Candidate)
    requires IpFamilies(fams)
    requires c in FollowUps(ident, t, obs, fams)
    ensures Sound(ident, t, obs, c)
  {
    hide Universe, Keep, InUniverse, Latest, HasExperiment, TlsParts, HttpParts, TcpSpec, UdpSpec, WithPort;
    var f := fams[0];
    UniverseMembers(t, f);
    if c in FamilyPart(ident, t, obs, fams) {
      UniverseMembers(t, fams[1]);
      KeptInUniverse(ident, t, obs, TcpSpec(t, fams[1]), FamilySpecific, c);
    } else if TcpAllFailed(obs, fams) {
      KeptInUniverse(ident, t, obs, TcpSpec(WithPort(t, 80), f), PortSpecific, c);
    } else if c in TlsParts(ident, t, obs, fams, fams) {
      TlsPartsSound(ident, t, obs, fams, fams, c);
    } else if c in HttpParts(ident, t, obs, fams) {
      HttpPartsSound(ident, t, obs, fams, c);
    } else {
      KeptInUniverse(ident, t, obs, UdpSpec(t, f, 0), UDPBlocked, c);
      OnFamily(t, obs, f, UdpSpec(t, f, 0));
    }
  }

  // ---------------------------------------------------------------------------------------
  // Proposals

  lemma {:induction false} RankedElement(obs: seq<Observation>, cs: seq<Candidate>, budget: nat, e: Experiment)
    requires e in Best(Ranked(obs, cs), budget)
    ensures exists c :: c in cs && c.exp == e
  {
    hide CanonicalForm, ScoreOf;
    var all := ScoreAll(obs, cs);
    ByScoreThenForm();
    Sorting.SortCorrect(Before, all);
    var ranked := Ranked(obs, cs);
    var i :| 0 <= i < |Best(ranked, budget)| && Best(ranked, budget)[i] == e;
    assert ranked[i] in multiset(ranked);
    assert ranked[i] in all;
    var k :| 0 <= k < |all| && all[k] == ranked[i];
    assert all[k] == ScoreOf(obs, cs[k]);
    assert cs[k] in cs && cs[k].exp == e by { ScoreKeepsExperiment(obs, cs[k]); }
  }

  lemma ScoreKeepsExperiment(obs: seq<Observation>, c: Candidate)
    ensures ScoreOf(obs, c).exp == c.exp
  {
  }

  /** The ranking is a strict weak order. */
  lemma ByScoreThenForm()
    ensures Sorting.Ordering(Before)
  {
    hide CanonicalForm;
    forall a: Scored, b: Scored ensures !(Before(a, b) && Before(b, a)) {
      Text.LessTotal(CanonicalForm(a.exp.spec), CanonicalForm(b.exp.spec));
    }
    forall a: Scored, b: Scored, c: Scored | !Before(b, a) && !Before(c, b) ensures !Before(c, a) {
      var x, y, z := CanonicalForm(a.exp.spec), CanonicalForm(b.exp.spec), CanonicalForm(c.exp.spec);
      if a.score == b.score == c.score { Text.LessTransitive(x, y, z); }
    }
  }

  ghost predicate FromTree(ident: Ident, prefer6: bool, t: Target, obs: seq<Observation>, e: Experiment) {
    e in Plan(ident, prefer6, t, obs)
  }

  ghost predicate FromCandidates(ident: Ident, prefer6: bool, t: Target, obs: seq<Observation>, e: Experiment) {
    exists c :: c in Candidates(ident, prefer6, t, obs) && c.exp == e
  }

  /** Every proposal is an experiment of the tree, or every proposal is a candidate; either way
      it lies in the universe. */
  lemma ProposalElement(ident: Ident, prefer6: bool, t: Target, s: Survey, budget: nat, e: Experiment)
    requires s.target == Some(t) && e in Propose(ident, prefer6, s, budget)
    ensures InUniverse(ident, t, e)
    ensures FromTree(ident, prefer6, t, s.observations, e) || FromCandidates(ident, prefer6, t, s.observations, e)
  {
    hide Plan, Candidates, Universe, Best, Ranked, Fresh, Make, Normalize;
    var obs := s.observations;
    var tree := Fresh(ident, obs, {}, Plan(ident, prefer6, t, obs), budget);
    if tree != [] {
      FreshWasProposed(ident, obs, {}, Plan(ident, prefer6, t, obs), budget, e);
      var p :| p in Plan(ident, prefer6, t, obs) && e == Normalize(ident, p);
      TreeInUniverse(ident, prefer6, t, obs, p);
      assert InUniverse(ident, t, p);
    } else {
      var best := Best(Ranked(obs, Candidates(ident, prefer6, t, obs)), budget);
      FreshWasProposed(ident, obs, {}, best, budget, e);
      var p :| p in best && e == Normalize(ident, p);
      RankedElement(obs, Candidates(ident, prefer6, t, obs), budget, p);
      var c :| c in Candidates(ident, prefer6, t, obs) && c.exp == p;
      CandidateSound(ident, prefer6, t, obs, c);
      assert InUniverse(ident, t, p);
    }
  }

  lemma TreeInUniverse(ident: Ident, prefer6: bool, t: Target, obs: seq<Observation>, e: Experiment)
    requires e in Plan(ident, prefer6, t, obs)
    ensures InUniverse(ident, t, e) && e.spec in FastSpecs(t)
  {
    hide Plan, FastSpecs, Make, InUniverse;
    PlanElement(ident, prefer6, t, obs, e);
    var s :| s in FastSpecs(t) && e == Make(ident, s);
    MadeInUniverse(ident, t, s);
  }

  // ---------------------------------------------------------------------------------------
  // Termination

  /** From any state whatever and for any outcomes, an Adaptive run records at most the
      unrecorded part of a universe of 20 experiments in at most as many rounds, and never
      ends because of the round limit. */
  lemma AdaptiveTerminates(ident: Ident, prefer6: bool, t: Target, s: Survey, a: Attempt)
    requires s.target == Some(t)
    ensures var r := Run(ident, AdaptivePolicy(ident, prefer6), s, a);
            var open := IdsOfSpecs(ident, Universe(t)) - Ids(s.observations);
            && |r.final.rounds| - |s.rounds| <= |open| <= 20
            && |r.final.observations| - |s.observations| <= |open|
            && !r.why.RoundLimit?
            && (r.why.BudgetSpent? ==> InitialBudget(a.maxProbes, s) <= |open|)
  {
    hide Propose, Fresh, Universe, Ids, IdsOfSpecs, PlanOf, CandidatesOf;
    var pol := AdaptivePolicy(ident, prefer6);
    var universe := IdsOfSpecs(ident, Universe(t));
    UniverseIsSmall(t);
    IdsOfSpecsCount(ident, Universe(t));
    assert |universe - Ids(s.observations)| <= |universe|;
    var inv := (st: Survey) => st.target == Some(t);
    forall st: Survey, b: nat | inv(st) && 0 < b && !pol.done(st) && pol.propose(st, b).Success?
      ensures var batch := Fresh(ident, st.observations, {}, pol.propose(st, b).value, b);
              inv(Step(a.probe, st, batch)) && IdsOf(batch) <= universe
    {
      ProposedIds(ident, prefer6, t, st, b);
    }
    RoundsExhaust(ident, pol, a.probe, a.expired, s, InitialBudget(a.maxProbes, s), 0, universe, inv);
  }

  /** The runner's deduplication leaves the policy's proposal as it is. */
  lemma RunnerKeepsProposal(ident: Ident, prefer6: bool, s: Survey, budget: nat)
    ensures Fresh(ident, s.observations, {}, Propose(ident, prefer6, s, budget), budget) ==
            Propose(ident, prefer6, s, budget)
  {
    hide PlanOf, CandidatesOf, Best, Ranked, Fresh;
    FreshTwice(ident, s.observations, PlanOf(ident, prefer6, s), budget);
    FreshTwice(ident, s.observations, Best(Ranked(s.observations, CandidatesOf(ident, prefer6, s)), budget), budget);
  }

  lemma NothingToPropose(ident: Ident, prefer6: bool, s: Survey, budget: nat)
    requires PlanOf(ident, prefer6, s) == [] && CandidatesOf(ident, prefer6, s) == []
    ensures Propose(ident, prefer6, s, budget) == []
  {
    hide PlanOf, CandidatesOf;
  }

  lemma ProposedIds(ident: Ident, prefer6: bool, t: Target, s: Survey, budget: nat)
    requires s.target == Some(t)
    ensures IdsOf(Fresh(ident, s.observations, {}, Propose(ident, prefer6, s, budget), budget)) <=
            IdsOfSpecs(ident, Universe(t))
  {
    hide Propose, Fresh, Universe;
    RunnerKeepsProposal(ident, prefer6, s, budget);
    var batch := Propose(ident, prefer6, s, budget);
    forall id | id in IdsOf(batch) ensures id in IdsOfSpecs(ident, Universe(t)) {
      var e :| e in batch && e.id == id;
      ProposalElement(ident, prefer6, t, s, budget, e);
    }
  }

  // ---------------------------------------------------------------------------------------
  // Progress

  /** On a well-formed record, a policy that is not done proposes something new. */
  lemma AdaptiveProgress(ident: Ident, prefer6: bool, t: Target, s: Survey, known: set<Spec>, budget: nat)
    requires s.target == Some(t) && budget > 0
    requires WellFormed(ident, s.observations) && Specs(s.observations) <= known && Admissible(ident, t, known)
    requires !AdaptivePolicy(ident, prefer6).done(s)
    ensures Fresh(ident, s.observations, {}, Propose(ident, prefer6, s, budget), budget) != []
  {
    hide Plan, Candidates, Fresh, Ranked, WellFormed, Admissible, Best;
    var obs := s.observations;
    var plan := Plan(ident, prefer6, t, obs);
    RunnerKeepsProposal(ident, prefer6, s, budget);
    if plan != [] {
      assert Admissible(ident, t, known);
      PlanSurvives(ident, prefer6, t, obs, known, budget);
    } else {
      CandidatesSurvive(ident, prefer6, t, obs, budget);
    }
  }

  lemma PlanSurvives(ident: Ident, prefer6: bool, t: Target, obs: seq<Observation>, known: set<Spec>, budget: nat)
    requires WellFormed(ident, obs) && Specs(obs) <= known && Admissible(ident, t, known)
    requires Plan(ident, prefer6, t, obs) != [] && budget > 0
    ensures Fresh(ident, obs, {}, Plan(ident, prefer6, t, obs), budget) != []
  {
    hide Plan, Fresh;
    PlanIsNew(ident, prefer6, t, obs, known);
    FreshKeeps(ident, obs, {}, Plan(ident, prefer6, t, obs), budget);
  }

  lemma CandidatesSurvive(ident: Ident, prefer6: bool, t: Target, obs: seq<Observation>, budget: nat)
    requires Candidates(ident, prefer6, t, obs) != [] && budget > 0
    ensures Fresh(ident, obs, {}, Best(Ranked(obs, Candidates(ident, prefer6, t, obs)), budget), budget) != []
  {
    hide Candidates, Fresh, HasExperiment, Universe, CanonicalForm, ScoreOf;
    var cs := Candidates(ident, prefer6, t, obs);
    ByScoreThenForm();
    Sorting.SortCorrect(Before, ScoreAll(obs, cs));
    assert |multiset(Ranked(obs, cs))| == |multiset(ScoreAll(obs, cs))|;
    var best := Best(Ranked(obs, cs), budget);
    assert |best| > 0 && best[0] in best;
    RankedElement(obs, cs, budget, best[0]);
    var c :| c in cs && c.exp == best[0];
    CandidateSound(ident, prefer6, t, obs, c);
    FreshNonempty(ident, obs, best, budget, budget);
  }

  /** Recording a batch of universe experiments keeps the record well-formed. */
  lemma BatchKeepsWellFormed(ident: Ident, t: Target, known: set<Spec>, s: Survey, probe: Probe, batch: seq<Experiment>)
    requires Universe(t) <= known && KnownState(ident, t, known, s)
    requires forall e :: e in batch ==> InUniverse(ident, t, e)
    ensures KnownState(ident, t, known, Step(probe, s, batch))
  {
    hide Universe, Normalize;
    var more := Batch(probe, |s.observations|, batch);
    forall o | o in s.observations + more
      ensures o.layer == o.experiment.spec.layer && o.experiment.id == ident(o.experiment.spec)
      ensures o.experiment.spec in known
    {
      if o in s.observations {
        assert o.experiment.spec in Specs(s.observations);
      } else {
        var i :| 0 <= i < |more| && more[i] == o;
        assert InUniverse(ident, t, batch[i]);
      }
    }
  }

  /** On well-formed records an Adaptive run ends only because the policy is done, the budget is
      spent, or the context is over. */
  lemma AdaptiveRunEnds(ident: Ident, prefer6: bool, t: Target, known: set<Spec>, s: Survey, a: Attempt)
    requires KnownState(ident, t, known, s) && Universe(t) <= known && NoCollision(ident, known)
    ensures var r := Run(ident, AdaptivePolicy(ident, prefer6), s, a);
            && (r.why.PolicyDone? || r.why.BudgetSpent? || r.why.ContextOver?)
            && (r.why.PolicyDone? ==> AdaptivePolicy(ident, prefer6).done(r.final))
            && KnownState(ident, t, known, r.final)
  {
    hide Fresh, Universe, Propose, PlanOf, CandidatesOf, NoCollision, KnownState;
    var pol := AdaptivePolicy(ident, prefer6);
    var inv := (st: Survey) => KnownState(ident, t, known, st);
    forall st: Survey, b: nat | inv(st) && 0 < b && !pol.done(st)
      ensures pol.propose(st, b).Success?
      ensures var batch := Fresh(ident, st.observations, {}, pol.propose(st, b).value, b);
              batch != [] && inv(Step(a.probe, st, batch))
    {
      UniverseIsAdmissible(ident, t, known);
      StepOfAdaptive(ident, prefer6, t, known, st, a.probe, b);
    }
    RoundsProgress(ident, pol, a.probe, a.expired, s, InitialBudget(a.maxProbes, s), 0, inv);
    TargetOfState(ident, t, known, s);
    AdaptiveTerminates(ident, prefer6, t, s, a);
  }

  lemma TargetOfState(ident: Ident, t: Target, known: set<Spec>, s: Survey)
    requires KnownState(ident, t, known, s)
    ensures s.target == Some(t)
  {
  }

  lemma UniverseIsAdmissible(ident: Ident, t: Target, known: set<Spec>)
    requires Universe(t) <= known && NoCollision(ident, known)
    ensures Admissible(ident, t, known)
  {
    hide FastSpecs, VariantSpecs;
  }

  lemma StepOfAdaptive(ident: Ident, prefer6: bool, t: Target, known: set<Spec>, s: Survey, probe: Probe, b: nat)
    requires KnownState(ident, t, known, s) && Universe(t) <= known && Admissible(ident, t, known)
    requires b > 0 && !AdaptivePolicy(ident, prefer6).done(s)
    ensures var batch := Fresh(ident, s.observations, {}, Propose(ident, prefer6, s, b), b);
            batch != [] && KnownState(ident, t, known, Step(probe, s, batch))
  {
    hide Fresh, Universe, Propose, PlanOf, CandidatesOf, Admissible;
    AdaptiveProgress(ident, prefer6, t, s, known, b);
    RunnerKeepsProposal(ident, prefer6, s, b);
    var batch := Propose(ident, prefer6, s, b);
    forall e | e in batch ensures InUniverse(ident, t, e) {
      ProposalElement(ident, prefer6, t, s, b, e);
    }
    BatchKeepsWellFormed(ident, t, known, s, probe, batch);
  }

  // ---------------------------------------------------------------------------------------
  // Selector agreement

  /** Every observation is an experiment of the universe, and outside TCP the default variant
      is exactly the first of its layer and family. */
  ghost predicate Orderly(ident: Ident, t: Target, s: Survey) {
    && s.target == Some(t)
    && (forall o :: o in s.observations ==> InUniverse(ident, t, o.experiment) && o.layer == o.experiment.spec.layer)
    && DefaultFirst(s.observations)
  }

  /** The default variant of a layer and family. */
  ghost function DefaultSpec(t: Target, layer: Layer, f: Family): Spec {
    match layer
    case LayerDNS => DnsSpec(t, ResolverSystem)
    case LayerTLS => TlsSpec(t, f, "", "")
    case LayerHTTP => HttpSpec(t, f, "")
    case LayerUDP => UdpSpec(t, f, 0)
    case LayerQUIC => QuicSpec(t, f, "")
    case _ => TcpSpec(t, f)
  }

  lemma UniverseDefaults(t: Target, s: Spec)
    requires s in Universe(t) && s.layer != LayerTCP
    ensures IsCanonical(s) <==> s == DefaultSpec(t, s.layer, s.family)
    ensures s.family != NoFamily && (s.layer == LayerDNS ==> s.family == FamilyAny)
    ensures s.layer == LayerUDP ==> IsCanonical(s)
  {
    hide WithPort, Defaults, DnsSpec, TcpSpec, TlsSpec, HttpSpec, UdpSpec, QuicSpec;
  }

  /** `e` may be recorded after `obs`: it is the default and the first, or neither. */
  ghost predicate InTurn(obs: seq<Observation>, e: Experiment) {
    e.spec.layer == LayerTCP || (IsCanonical(e.spec) <==> !HasKey(obs, e.spec.layer, e.spec.family))
  }

  lemma TreeInTurn(ident: Ident, prefer6: bool, t: Target, obs: seq<Observation>, e: Experiment)
    requires e in Plan(ident, prefer6, t, obs)
    ensures InTurn(obs, e)
  {
    hide Plan, Latest, Make, IsCanonical;
    PlanElement(ident, prefer6, t, obs, e);
    TreeInUniverse(ident, prefer6, t, obs, e);
    LatestMeaning(obs, e.spec.layer, e.spec.family);
    FastSpecsCanonical(t, e.spec);
  }

  lemma FastSpecsCanonical(t: Target, s: Spec)
    requires s in FastSpecs(t)
    ensures IsCanonical(s)
  {
  }

  lemma CandidateInTurn(ident: Ident, t: Target, s: Survey, c: Candidate)
    requires Orderly(ident, t, s) && Sound(ident, t, s.observations, c)
    ensures InTurn(s.observations, c.exp)
  {
    hide Universe, Normalize, DefaultFirst, IsCanonical, DnsSpec, FollowUpOn, HasExperiment;
    var obs, spec := s.observations, c.exp.spec;
    if spec.layer != LayerTCP {
      if spec == DnsSpec(t, ResolverPublic) && HasKey(obs, LayerDNS, NoFamily) {
        VariantsAreNotDefaults(t, IPv4);
        DnsIsRecorded(ident, t, s);
      } else {
        var f :| (f == IPv4 || f == IPv6) && FollowUpOn(t, obs, f, spec);
        FollowUpInTurn(ident, t, s, f, c.exp);
      }
    }
  }

  lemma FollowUpInTurn(ident: Ident, t: Target, s: Survey, f: Family, e: Experiment)
    requires Orderly(ident, t, s) && f != NoFamily && FollowUpOn(t, s.observations, f, e.spec)
    requires e.id == ident(e.spec) && !HasExperiment(s.observations, e.id)
    ensures InTurn(s.observations, e)
  {
    hide Orderly, IsCanonical, TlsSpec, HttpSpec, UdpSpec, HasKey, HasExperiment;
    VariantsAreNotDefaults(t, f);
    if e.spec == UdpSpec(t, f, 0) && HasKey(s.observations, LayerUDP, f) {
      UdpIsRecorded(ident, t, s, f);
    }
  }

  lemma DnsIsRecorded(ident: Ident, t: Target, s: Survey)
    requires Orderly(ident, t, s) && HasKey(s.observations, LayerDNS, NoFamily)
    ensures HasKey(s.observations, LayerDNS, FamilyAny)
  {
    hide Universe, Normalize, DefaultFirst, IsCanonical;
    var i :| 0 <= i < |s.observations| && Matches(s.observations[i], LayerDNS, NoFamily);
    assert s.observations[i] in s.observations;
    UniverseDefaults(t, s.observations[i].experiment.spec);
    assert Matches(s.observations[i], LayerDNS, FamilyAny);
  }

  lemma UdpIsRecorded(ident: Ident, t: Target, s: Survey, f: Family)
    requires Orderly(ident, t, s) && f != NoFamily && HasKey(s.observations, LayerUDP, f)
    ensures HasExperiment(s.observations, ident(UdpSpec(t, f, 0)))
  {
    hide Universe, Normalize, DefaultFirst, IsCanonical;
    var i :| 0 <= i < |s.observations| && Matches(s.observations[i], LayerUDP, f);
    assert s.observations[i] in s.observations;
    UniverseDefaults(t, s.observations[i].experiment.spec);
  }

  lemma VariantsAreNotDefaults(t: Target, f: Family)
    ensures !IsCanonical(DnsSpec(t, ResolverPublic)) && !IsCanonical(TlsSpec(t, f, "", SNI_NONE))
    ensures !IsCanonical(TlsSpec(t, f, H1, "")) && !IsCanonical(HttpSpec(t, f, H1))
    ensures IsCanonical(TlsSpec(t, f, "", "")) && IsCanonical(UdpSpec(t, f, 0))
  {
  }

  /** Experiments that are each in turn and have distinct IDs stay in turn within one batch. */
  lemma {:induction false} BatchKeepsOrder(ident: Ident, t: Target, s: Survey, probe: Probe, batch: seq<Experiment>)
    requires Orderly(ident, t, s) && DistinctIds(batch)
    requires forall e :: e in batch ==> InUniverse(ident, t, e) && InTurn(s.observations, e)
    ensures Orderly(ident, t, Step(probe, s, batch))
    decreases |batch|
  {
    hide Universe, Normalize, IsCanonical, HasKey;
    var obs := s.observations;
    if |batch| == 0 {
      assert Step(probe, s, batch).observations == obs;
    } else {
      var n := |batch| - 1;
      var e := batch[n];
      assert e in batch;
      BatchKeepsOrder(ident, t, s, probe, batch[..n]);
      var mid := Step(probe, s, batch[..n]).observations;
      var o := RunOne(probe, |obs| + n, e);
      assert Step(probe, s, batch).observations == mid + [o];
      if e.spec.layer != LayerTCP {
        KeyAfterBatch(ident, t, s, probe, batch);
      }
      DefaultFirstAppend(mid, o);
    }
  }

  lemma KeyAfterBatch(ident: Ident, t: Target, s: Survey, probe: Probe, batch: seq<Experiment>)
    requires |batch| > 0 && DistinctIds(batch)
    requires forall e :: e in batch ==> InUniverse(ident, t, e) && InTurn(s.observations, e)
    requires batch[|batch| - 1].spec.layer != LayerTCP
    ensures var e := batch[|batch| - 1];
            HasKey(Step(probe, s, batch[..|batch| - 1]).observations, e.spec.layer, e.spec.family) <==>
            HasKey(s.observations, e.spec.layer, e.spec.family)
  {
    hide Universe, Normalize, IsCanonical;
    var n, obs := |batch| - 1, s.observations;
    var e := batch[n];
    assert e in batch;
    var mid := Step(probe, s, batch[..n]).observations;
    UniverseDefaults(t, e.spec);
    if HasKey(obs, e.spec.layer, e.spec.family) {
      var i :| 0 <= i < |obs| && Matches(obs[i], e.spec.layer, e.spec.family);
      assert mid[i] == obs[i];
    } else {
      forall i | 0 <= i < |mid| ensures !Matches(mid[i], e.spec.layer, e.spec.family) {
        if i < |obs| {
          assert mid[i] == obs[i];
        } else {
          var d := batch[i - |obs|];
          assert d in batch && mid[i].experiment == d && d.id != e.id;
          if d.spec.layer == e.spec.layer { UniverseDefaults(t, d.spec); }
        }
      }
    }
  }

  /** Every run of the Adaptive policy keeps the record orderly, for any outcomes, budgets and
      stops. */
  lemma AdaptiveRunKeepsOrder(ident: Ident, prefer6: bool, t: Target, s: Survey, a: Attempt)
    requires Orderly(ident, t, s)
    ensures Orderly(ident, t, Run(ident, AdaptivePolicy(ident, prefer6), s, a).final)
  {
    hide Fresh, Propose, PlanOf, CandidatesOf, Orderly;
    var pol := AdaptivePolicy(ident, prefer6);
    var inv := (st: Survey) => Orderly(ident, t, st);
    forall st: Survey, b: nat | inv(st) && 0 < b && !pol.done(st) && pol.propose(st, b).Success?
      ensures inv(Step(a.probe, st, Fresh(ident, st.observations, {}, pol.propose(st, b).value, b)))
    {
      ProposalKeepsOrder(ident, prefer6, t, st, a.probe, b);
    }
    RoundsKeep(ident, pol, a.probe, a.expired, s, InitialBudget(a.maxProbes, s), 0, inv);
  }

  lemma ProposalKeepsOrder(ident: Ident, prefer6: bool, t: Target, s: Survey, probe: Probe, b: nat)
    requires Orderly(ident, t, s)
    ensures Orderly(ident, t, Step(probe, s, Fresh(ident, s.observations, {}, Propose(ident, prefer6, s, b), b)))
  {
    hide Fresh, Propose, Plan, Candidates, InUniverse, InTurn, DefaultFirst, Step;
    RunnerKeepsProposal(ident, prefer6, s, b);
    var batch := Propose(ident, prefer6, s, b);
    FreshIsSound(ident, s.observations, {}, batch, b);
    forall e | e in batch ensures InUniverse(ident, t, e) && InTurn(s.observations, e) {
      ProposalElement(ident, prefer6, t, s, b, e);
      if FromTree(ident, prefer6, t, s.observations, e) {
        TreeInTurn(ident, prefer6, t, s.observations, e);
      } else {
        var c :| c in Candidates(ident, prefer6, t, s.observations) && c.exp == e;
        CandidateSound(ident, prefer6, t, s.observations, c);
        CandidateInTurn(ident, t, s, c);
      }
    }
    BatchKeepsOrder(ident, t, s, probe, batch);
  }

  lemma {:induction false} AdaptiveResumesKeepOrder(ident: Ident, prefer6: bool, t: Target, s: Survey, runs: seq<Attempt>)
    requires Orderly(ident, t, s)
    ensures Orderly(ident, t, Resumes(ident, AdaptivePolicy(ident, prefer6), s, runs))
    decreases runs
  {
    hide Orderly, AdaptivePolicy, Run;
    if |runs| > 0 {
      AdaptiveRunKeepsOrder(ident, prefer6, t, s, runs[0]);
      AdaptiveResumesKeepOrder(ident, prefer6, t, Run(ident, AdaptivePolicy(ident, prefer6), s, runs[0]).final, runs[1..]);
    }
  }
}
