/** Which families the Adaptive policy probes, and so which observation a lookup with the family
    left open finds. */
module AdaptiveFamilies {
  import opened Model
  import opened Selectors
  import opened Dedupe
  import opened Runs
  import opened Fast
  import opened FastRuns
  import opened FastCausal
  import opened FastOrder
  import opened Adaptive
  import opened AdaptiveRuns
  import opened AdaptiveChoice

  ghost function DnsOf(obs: seq<Observation>): Option<Observation> { Latest(obs, LayerDNS, NoFamily) }

  /** `f` is the first family of the passing DNS answer. */
  ghost predicate Preferred(prefer6: bool, obs: seq<Observation>, f: Family) {
    var dns := DnsOf(obs);
    Passes(dns) && Families(dns.value, prefer6) != [] && f == Families(dns.value, prefer6)[0]
  }

  /** UDP and QUIC were only probed on the preferred family. */
  ghost predicate OnPreferred(prefer6: bool, obs: seq<Observation>) {
    forall o :: o in obs && (o.layer == LayerUDP || o.layer == LayerQUIC) ==>
      Preferred(prefer6, obs, o.experiment.spec.family)
  }

  /** What may be proposed on a record: DNS alone until it passes, then anything but DNS, UDP and
      QUIC only on the preferred family. */
  ghost predicate FamilyInTurn(prefer6: bool, obs: seq<Observation>, e: Experiment) {
    if !Passes(DnsOf(obs)) then e.spec.layer == LayerDNS
    else
      && e.spec.layer != LayerDNS
      && (e.spec.layer == LayerUDP || e.spec.layer == LayerQUIC ==> Preferred(prefer6, obs, e.spec.family))
  }

  lemma CandidateFamily(ident: Ident, prefer6: bool, t: Target, obs: seq<Observation>, c: Candidate)
    requires c in Candidates(ident, prefer6, t, obs)
    ensures FamilyInTurn(prefer6, obs, c.exp)
  {
    hide Latest, Keep, TlsParts, HttpParts, Families, WithPort, TcpSpec, UdpSpec, DnsSpec;
    var dns := DnsOf(obs);
    if dns.value.status != Pass {
      KeptSpec(ident, obs, DnsSpec(t, ResolverPublic), ResolverAnomaly, c);
    } else {
      var fams := Families(dns.value, prefer6);
      if c in FamilyPart(ident, t, obs, fams) {
        KeptSpec(ident, obs, TcpSpec(t, fams[1]), FamilySpecific, c);
      } else if TcpAllFailed(obs, fams) {
        KeptSpec(ident, obs, TcpSpec(WithPort(t, 80), fams[0]), PortSpecific, c);
      } else if c in TlsParts(ident, t, obs, fams, fams) {
        TlsPartsLayer(ident, t, obs, fams, fams, c);
      } else if c in HttpParts(ident, t, obs, fams) {
        HttpPartsLayer(ident, t, obs, fams, c);
      } else {
        KeptSpec(ident, obs, UdpSpec(t, fams[0], 0), UDPBlocked, c);
        assert fams[0] != NoFamily;
      }
    }
  }

  lemma ProposalFamily(ident: Ident, prefer6: bool, t: Target, s: Survey, budget: nat, e: Experiment)
    requires s.target == Some(t) && e in Propose(ident, prefer6, s, budget)
    ensures FamilyInTurn(prefer6, s.observations, e)
  {
    hide Propose, Plan, Candidates, InUniverse, Families, FamilyInTurn, Latest;
    ProposalElement(ident, prefer6, t, s, budget, e);
    var obs := s.observations;
    if FromTree(ident, prefer6, t, obs, e) {
      PlanQuicFamily(ident, prefer6, t, obs, e);
      assert FamilyInTurn(prefer6, obs, e) by { TreeFamily(prefer6, obs, e); }
    } else {
      var c :| c in Candidates(ident, prefer6, t, obs) && c.exp == e;
      CandidateFamily(ident, prefer6, t, obs, c);
    }
  }

  lemma TreeFamily(prefer6: bool, obs: seq<Observation>, e: Experiment)
    requires e.spec.layer == LayerQUIC ==> Preferred(prefer6, obs, e.spec.family)
    requires e.spec.layer != LayerUDP
    requires e.spec.layer == LayerDNS <==> DnsOf(obs).None?
    requires e.spec.layer != LayerDNS ==> Passes(DnsOf(obs))
    ensures FamilyInTurn(prefer6, obs, e)
  {
  }

  lemma BatchKeepsPreferred(prefer6: bool, s: Survey, probe: Probe, batch: seq<Experiment>)
    requires OnPreferred(prefer6, s.observations)
    requires forall e :: e in batch ==> FamilyInTurn(prefer6, s.observations, e)
    ensures OnPreferred(prefer6, Step(probe, s, batch).observations)
  {
    hide Latest, Families;
    var obs, done := s.observations, Step(probe, s, batch).observations;
    forall i | 0 <= i < |batch| ensures FamilyInTurn(prefer6, obs, batch[i]) { assert batch[i] in batch; }
    if Passes(DnsOf(obs)) {
      LatestAfterBatch(obs, probe, batch, LayerDNS, NoFamily);
    }
    forall o | o in done && (o.layer == LayerUDP || o.layer == LayerQUIC)
      ensures Preferred(prefer6, done, o.experiment.spec.family)
    {
      if o !in obs {
        var more := Batch(probe, |obs|, batch);
        var i :| 0 <= i < |more| && more[i] == o;
        assert o.experiment == batch[i] && o.layer == batch[i].spec.layer;
      }
    }
  }

  ghost predicate Filed(ident: Ident, prefer6: bool, t: Target, s: Survey) {
    Orderly(ident, t, s) && OnPreferred(prefer6, s.observations)
  }

  lemma RunKeepsFiled(ident: Ident, prefer6: bool, t: Target, s: Survey, a: Attempt)
    requires Filed(ident, prefer6, t, s)
    ensures Filed(ident, prefer6, t, Run(ident, AdaptivePolicy(ident, prefer6), s, a).final)
  {
    hide Fresh, Propose, PlanOf, CandidatesOf, Orderly, OnPreferred, Step, FamilyInTurn;
    var pol := AdaptivePolicy(ident, prefer6);
    var inv := (st: Survey) => Filed(ident, prefer6, t, st);
    forall st: Survey, b: nat | inv(st) && 0 < b && !pol.done(st) && pol.propose(st, b).Success?
      ensures inv(Step(a.probe, st, Fresh(ident, st.observations, {}, pol.propose(st, b).value, b)))
    {
      assert st.target == Some(t) by { TargetIs(ident, t, st); }
      ProposalKeepsOrder(ident, prefer6, t, st, a.probe, b);
      RunnerKeepsProposal(ident, prefer6, st, b);
      var batch := Propose(ident, prefer6, st, b);
      forall e | e in batch ensures FamilyInTurn(prefer6, st.observations, e) {
        ProposalFamily(ident, prefer6, t, st, b, e);
      }
      BatchKeepsPreferred(prefer6, st, a.probe, batch);
    }
    RoundsKeep(ident, pol, a.probe, a.expired, s, InitialBudget(a.maxProbes, s), 0, inv);
  }

  lemma TargetIs(ident: Ident, t: Target, s: Survey)
    requires Orderly(ident, t, s)
    ensures s.target == Some(t)
  {
  }

  lemma {:induction false} ResumesKeepFiled(ident: Ident, prefer6: bool, t: Target, s: Survey, runs: seq<Attempt>)
    requires Filed(ident, prefer6, t, s)
    ensures Filed(ident, prefer6, t, Resumes(ident, AdaptivePolicy(ident, prefer6), s, runs))
    decreases runs
  {
    hide Filed, AdaptivePolicy, Run;
    if |runs| > 0 {
      RunKeepsFiled(ident, prefer6, t, s, runs[0]);
      ResumesKeepFiled(ident, prefer6, t, Run(ident, AdaptivePolicy(ident, prefer6), s, runs[0]).final, runs[1..]);
    }
  }

  /** Every state reachable from a fresh one. */
  lemma ReachedIsFiled(ident: Ident, prefer6: bool, t: Target, runs: seq<Attempt>)
    ensures Filed(ident, prefer6, t, Resumes(ident, AdaptivePolicy(ident, prefer6), Survey(Some(t), 0, [], []), runs))
  {
    hide AdaptivePolicy, Resumes;
    ResumesKeepFiled(ident, prefer6, t, Survey(Some(t), 0, [], []), runs);
  }

  // ---------------------------------------------------------------------------------------
  // Lookups with the family left open

  /** A family that two lookups of a layer do not tell apart gives the same selections. */
  lemma {:induction false} SameSelections(obs: seq<Observation>, layer: Layer, f: Family, g: Family)
    requires forall i :: 0 <= i < |obs| ==> (Matches(obs[i], layer, f) <==> Matches(obs[i], layer, g))
    ensures Latest(obs, layer, f) == Latest(obs, layer, g)
    ensures LatestCanonical(obs, layer, f) == LatestCanonical(obs, layer, g)
    ensures Pick(obs, layer, f) == Pick(obs, layer, g)
    decreases |obs|
  {
    hide Matches, IsCanonical;
    if |obs| > 0 { SameSelections(obs[..|obs| - 1], layer, f, g); }
  }

  lemma {:induction false} SameFirst(obs: seq<Observation>, layer: Layer, f: Family, g: Family)
    requires forall i :: 0 <= i < |obs| ==> (Matches(obs[i], layer, f) <==> Matches(obs[i], layer, g))
    ensures First(obs, layer, f) == First(obs, layer, g)
    decreases |obs|
  {
    hide Matches;
    if |obs| > 0 {
      assert Matches(obs[0], layer, f) <==> Matches(obs[0], layer, g);
      forall i | 0 <= i < |obs[1..]| ensures Matches(obs[1..][i], layer, f) <==> Matches(obs[1..][i], layer, g) {
        assert obs[1..][i] == obs[i + 1];
      }
      SameFirst(obs[1..], layer, f, g);
    }
  }

  /** The family all observations of a layer that is looked up without one share. */
  ghost function SharedFamily(prefer6: bool, obs: seq<Observation>, layer: Layer): (f: Family)
    ensures f != NoFamily
  {
    var dns := DnsOf(obs);
    if layer != LayerDNS && Passes(dns) && Families(dns.value, prefer6) != [] then Families(dns.value, prefer6)[0]
    else FamilyAny
  }

  lemma LayersShareFamily(ident: Ident, prefer6: bool, t: Target, s: Survey, layer: Layer, i: nat)
    requires Filed(ident, prefer6, t, s) && i < |s.observations|
    requires layer == LayerDNS || layer == LayerUDP || layer == LayerQUIC
    ensures Matches(s.observations[i], layer, NoFamily)
            <==> Matches(s.observations[i], layer, SharedFamily(prefer6, s.observations, layer))
  {
    hide Universe, Latest, Families, DefaultFirst;
    var o := s.observations[i];
    assert o in s.observations;
    if o.layer == LayerDNS { UniverseDefaults(t, o.experiment.spec); }
  }

  /** Selector agreement: on every state reachable from a fresh one under Adaptive, through any
      chain of runs and resumes with any outcomes, "first wins" and "canonical wins" choose the
      same observation for every layer but TCP, also where DNS, UDP and QUIC are looked up
      without a family. */
  lemma AdaptiveSelectorsAgree(ident: Ident, prefer6: bool, t: Target, runs: seq<Attempt>, layer: Layer, family: Family)
    requires layer != LayerTCP && Lookup(layer, family)
    ensures var obs := Resumes(ident, AdaptivePolicy(ident, prefer6), Survey(Some(t), 0, [], []), runs).observations;
            First(obs, layer, family) == Pick(obs, layer, family)
  {
    hide AdaptivePolicy, Resumes, InUniverse, First, Pick, OnPreferred, SharedFamily, Matches;
    ReachedIsFiled(ident, prefer6, t, runs);
    var s := Resumes(ident, AdaptivePolicy(ident, prefer6), Survey(Some(t), 0, [], []), runs);
    if family != NoFamily {
      FirstIsPick(s.observations, layer, family);
    } else {
      var f := SharedFamily(prefer6, s.observations, layer);
      forall i | 0 <= i < |s.observations|
        ensures Matches(s.observations[i], layer, NoFamily) <==> Matches(s.observations[i], layer, f)
      {
        LayersShareFamily(ident, prefer6, t, s, layer, i);
      }
      SameSelections(s.observations, layer, NoFamily, f);
      SameFirst(s.observations, layer, NoFamily, f);
      FirstIsPick(s.observations, layer, f);
    }
  }
}
