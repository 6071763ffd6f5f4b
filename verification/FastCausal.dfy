/** What every Fast run records, from any record and for any outcomes: each new observation was
    planned, follows its prerequisites, and repeats no layer and family. */
module FastCausal {
  import opened Model
  import opened Selectors
  import opened Dedupe
  import opened Runs
  import opened Fast
  import opened FastRuns
  import opened FastSequence

  ghost predicate HasPass(obs: seq<Observation>, layer: Layer, family: Family) {
    exists j :: 0 <= j < |obs| && Matches(obs[j], layer, family) && obs[j].status == Pass
  }

  /** The prerequisites of an experiment are passing observations before it. */
  ghost predicate Prerequisites(t: Target, before: seq<Observation>, e: Experiment) {
    var f := e.spec.family;
    match e.spec.layer
    case LayerDNS => true
    case LayerTLS => HasPass(before, LayerDNS, NoFamily) && HasPass(before, LayerTCP, f)
    case LayerHTTP => HasPass(before, LayerDNS, NoFamily)
                      && HasPass(before, if t.IsHTTPS() then LayerTLS else LayerTCP, f)
    case _ => HasPass(before, LayerDNS, NoFamily)
  }

  lemma PassIsRecorded(obs: seq<Observation>, layer: Layer, family: Family)
    requires Passes(Latest(obs, layer, family))
    ensures HasPass(obs, layer, family)
  {
    hide Latest;
    LatestMeaning(obs, layer, family);
  }

  lemma PlanPrerequisites(ident: Ident, prefer6: bool, t: Target, obs: seq<Observation>, e: Experiment)
    requires e in Plan(ident, prefer6, t, obs)
    ensures Prerequisites(t, obs, e)
  {
    hide Latest, Tree, Families, Make, HasPass, DnsSpec;
    var dns := Latest(obs, LayerDNS, NoFamily);
    if dns.Some? {
      PassIsRecorded(obs, LayerDNS, NoFamily);
      FamiliesAreKnown(dns.value, prefer6);
      TreePrerequisites(ident, t, obs, Families(dns.value, prefer6), e);
    } else {
      DnsIsDns(ident, t);
    }
  }

  lemma TreePrerequisites(ident: Ident, t: Target, obs: seq<Observation>, fams: seq<Family>, e: Experiment)
    requires fams == [] || fams == [IPv4] || fams == [IPv6] || fams == [IPv4, IPv6] || fams == [IPv6, IPv4]
    requires e in Tree(ident, t, obs, fams)
    ensures e.spec.layer == LayerTLS ==> HasPass(obs, LayerTCP, e.spec.family)
    ensures e.spec.layer == LayerHTTP ==> HasPass(obs, if t.IsHTTPS() then LayerTLS else LayerTCP, e.spec.family)
  {
    hide Latest, Make, MenuOf, HasPass, Tree, AppNext, SlotsOf;
    NoTree(ident, t, obs);
    assert |fams| > 0;
    var f := fams[0];
    var g := if |fams| == 2 then fams[1] else fams[0];
    var m, n := MenuOf(ident, t, f), MenuOf(ident, t, g);
    MadeKeys(ident, t, f);
    MadeKeys(ident, t, g);
    TreeReadsSlots(ident, t, obs, f, g);
    assert fams == [f] || fams == [f, g];
    MenuPrerequisites(t, m, f, obs, e);
    MenuPrerequisites(t, n, g, obs, e);
    if e.spec.layer == LayerTLS || e.spec.layer == LayerHTTP {
      assert e in AppNext(t.IsHTTPS(), m, SlotsOf(obs, f)) || e in AppNext(t.IsHTTPS(), n, SlotsOf(obs, g));
    }
  }

  lemma MenuPrerequisites(t: Target, m: Menu, f: Family, obs: seq<Observation>, e: Experiment)
    requires Keyed(m, f)
    ensures e in AppNext(t.IsHTTPS(), m, SlotsOf(obs, f)) ==>
              && e.spec.family == f
              && (e.spec.layer == LayerTLS ==> HasPass(obs, LayerTCP, f))
              && (e.spec.layer == LayerHTTP ==> HasPass(obs, if t.IsHTTPS() then LayerTLS else LayerTCP, f))
  {
    hide Latest, HasPass;
    if Passes(Latest(obs, LayerTCP, f)) { PassIsRecorded(obs, LayerTCP, f); }
    if Passes(Latest(obs, LayerTLS, f)) { PassIsRecorded(obs, LayerTLS, f); }
  }

  lemma {:induction false} MissingTcpIsTcp(ident: Ident, t: Target, obs: seq<Observation>, fams: seq<Family>, e: Experiment)
    requires e in MissingTcp(ident, t, obs, fams)
    ensures e.spec.layer == LayerTCP
  {
    hide Latest;
    if e != Make(ident, TcpSpec(t, fams[0])) { MissingTcpIsTcp(ident, t, obs, fams[1..], e); }
  }

  lemma BranchFamilies(ident: Ident, t: Target, obs: seq<Observation>, f: Family, e: Experiment)
    ensures e in QuicBranch(ident, t, obs, f) && f != NoFamily ==> e.spec.family == f
    ensures e in AppBranch(ident, t, obs, f) ==> e.spec.layer == LayerTLS || e.spec.layer == LayerHTTP
  {
    hide Latest;
  }

  /** QUIC is only ever planned for the first family of a passing DNS answer; UDP never is. */
  lemma PlanQuicFamily(ident: Ident, prefer6: bool, t: Target, obs: seq<Observation>, e: Experiment)
    requires e in Plan(ident, prefer6, t, obs)
    ensures e.spec.layer == LayerQUIC ==>
              var dns := Latest(obs, LayerDNS, NoFamily);
              Passes(dns) && Families(dns.value, prefer6) != [] && e.spec.family == Families(dns.value, prefer6)[0]
    ensures e.spec.layer != LayerUDP
    ensures e.spec.layer == LayerDNS <==> Latest(obs, LayerDNS, NoFamily).None?
    ensures e.spec.layer != LayerDNS ==> Passes(Latest(obs, LayerDNS, NoFamily))
  {
    hide Latest, MissingTcp, FirstTcpPass, QuicBranch, AppBranch, Make, Families;
    var dns := Latest(obs, LayerDNS, NoFamily);
    if dns.None? {
      DnsIsDns(ident, t);
    } else {
      var fams := Families(dns.value, prefer6);
      var pass := FirstTcpPass(obs, fams);
      if e in MissingTcp(ident, t, obs, fams) {
        MissingTcpIsTcp(ident, t, obs, fams, e);
      } else {
        BranchFamilies(ident, t, obs, fams[0], e);
        if pass.Some? { BranchFamilies(ident, t, obs, pass.value, e); }
        QuicIsQuic(ident, t, obs, fams[0], e);
      }
    }
  }

  lemma QuicIsQuic(ident: Ident, t: Target, obs: seq<Observation>, f: Family, e: Experiment)
    ensures e in QuicBranch(ident, t, obs, f) ==> e.spec.layer == LayerQUIC
  {
    hide Latest;
  }

  // ---------------------------------------------------------------------------------------
  // Planned observations

  /** Observation `i` was planned on the first `k` observations, and its layer and family are not
      among the observations before it. */
  ghost predicate PlannedOn(ident: Ident, prefer6: bool, t: Target, obs: seq<Observation>, i: nat, k: nat)
    requires k <= i < |obs|
  {
    var o := obs[i];
    && o.experiment in Plan(ident, prefer6, t, obs[..k])
    && o.layer == o.experiment.spec.layer
    && !HasKey(obs[..i], o.layer, o.experiment.spec.family)
  }

  ghost predicate PlannedAt(ident: Ident, prefer6: bool, t: Target, obs: seq<Observation>, i: nat)
    requires i < |obs|
  {
    exists k :: 0 <= k <= i && PlannedOn(ident, prefer6, t, obs, i, k)
  }

  /** Every observation from `from` on was planned. */
  ghost predicate Planned(ident: Ident, prefer6: bool, t: Target, from: nat, obs: seq<Observation>) {
    forall i :: from <= i < |obs| ==> PlannedAt(ident, prefer6, t, obs, i)
  }

  lemma WhenPlanned(ident: Ident, prefer6: bool, t: Target, from: nat, obs: seq<Observation>, i: nat) returns (k: nat)
    requires Planned(ident, prefer6, t, from, obs) && from <= i < |obs|
    ensures k <= i && PlannedOn(ident, prefer6, t, obs, i, k)
  {
    hide PlannedOn;
    assert PlannedAt(ident, prefer6, t, obs, i);
    k :| 0 <= k <= i && PlannedOn(ident, prefer6, t, obs, i, k);
  }

  lemma BatchWasPlanned(ident: Ident, prefer6: bool, t: Target, s: Survey, budget: nat)
    requires s.target == Some(t)
    ensures var pol := FastPolicy(ident, prefer6);
            var batch := Fresh(ident, s.observations, {}, pol.propose(s, budget).value, budget);
            && (forall e :: e in batch ==> e in Plan(ident, prefer6, t, s.observations))
            && DistinctKeys(batch)
  {
    hide Plan, Fresh, Normalize;
    var plan := Plan(ident, prefer6, t, s.observations);
    var batch := Fresh(ident, s.observations, {}, plan, budget);
    FreshTwice(ident, s.observations, plan, budget);
    FreshIsSound(ident, s.observations, {}, plan, budget);
    forall e | e in batch ensures e in plan {
      FreshWasProposed(ident, s.observations, {}, plan, budget, e);
      var p :| p in plan && e == Normalize(ident, p);
      PlannedIsNormal(ident, prefer6, t, s.observations, p);
    }
    PlanHasDistinctKeys(ident, prefer6, t, s.observations);
    forall i, j | 0 <= i < j < |batch|
      ensures batch[i].spec.layer != batch[j].spec.layer || batch[i].spec.family != batch[j].spec.family
    {
      assert batch[i] in batch && batch[j] in batch && batch[i] != batch[j];
      var x :| 0 <= x < |plan| && plan[x] == batch[i];
      var y :| 0 <= y < |plan| && plan[y] == batch[j];
      assert x < y || y < x;
    }
  }

  lemma PlannedIsNormal(ident: Ident, prefer6: bool, t: Target, obs: seq<Observation>, e: Experiment)
    requires e in Plan(ident, prefer6, t, obs)
    ensures Normalize(ident, e) == e
  {
    hide Plan, FastSpecs, Make;
    PlanElement(ident, prefer6, t, obs, e);
    var s :| s in FastSpecs(t) && e == Make(ident, s);
    MadeIsNormal(ident, t, s);
  }

  lemma RecordedBatchIsPlanned(ident: Ident, prefer6: bool, t: Target, from: nat, obs: seq<Observation>,
                               probe: Probe, batch: seq<Experiment>)
    requires from <= |obs| && Planned(ident, prefer6, t, from, obs)
    requires DistinctKeys(batch) && forall e :: e in batch ==> e in Plan(ident, prefer6, t, obs)
    ensures Planned(ident, prefer6, t, from, obs + Batch(probe, |obs|, batch))
  {
    hide Plan, PlannedOn;
    var done := obs + Batch(probe, |obs|, batch);
    forall i | from <= i < |done| ensures PlannedAt(ident, prefer6, t, done, i) {
      if i < |obs| {
        var k := WhenPlanned(ident, prefer6, t, from, obs, i);
        PlannedLonger(ident, prefer6, t, obs, done, i, k);
      } else {
        PlannedNow(ident, prefer6, t, obs, probe, batch, i);
      }
    }
  }

  lemma PlannedLonger(ident: Ident, prefer6: bool, t: Target, obs: seq<Observation>, done: seq<Observation>, i: nat, k: nat)
    requires k <= i < |obs| && obs <= done && PlannedOn(ident, prefer6, t, obs, i, k)
    ensures PlannedOn(ident, prefer6, t, done, i, k)
  {
    hide Plan, HasKey;
    assert done[..k] == obs[..k] && done[..i] == obs[..i] && done[i] == obs[i];
  }

  lemma PlannedNow(ident: Ident, prefer6: bool, t: Target, obs: seq<Observation>, probe: Probe,
                   batch: seq<Experiment>, i: nat)
    requires DistinctKeys(batch) && forall e :: e in batch ==> e in Plan(ident, prefer6, t, obs)
    requires |obs| <= i < |obs| + |batch|
    ensures PlannedOn(ident, prefer6, t, obs + Batch(probe, |obs|, batch), i, |obs|)
  {
    hide Plan, Latest, HasKey, Batch, DistinctKeys, FastSpecs, Make;
    var done, n := obs + Batch(probe, |obs|, batch), |obs|;
    var e := batch[i - n];
    assert e in batch;
    RecordedAt(obs, probe, batch, i);
    PlanElement(ident, prefer6, t, obs, e);
    LatestMeaning(obs, e.spec.layer, e.spec.family);
    NewInBatch(obs, probe, batch, i);
  }

  lemma RecordedAt(obs: seq<Observation>, probe: Probe, batch: seq<Experiment>, i: nat)
    requires |obs| <= i < |obs| + |batch|
    ensures var done := obs + Batch(probe, |obs|, batch);
            && |done| == |obs| + |batch| && done[..|obs|] == obs
            && done[i].experiment == batch[i - |obs|] && done[i].layer == batch[i - |obs|].spec.layer
  {
  }

  lemma NewInBatch(obs: seq<Observation>, probe: Probe, batch: seq<Experiment>, i: nat)
    requires DistinctKeys(batch) && |obs| <= i < |obs| + |batch|
    requires batch[i - |obs|].spec.family != NoFamily
    requires !HasKey(obs, batch[i - |obs|].spec.layer, batch[i - |obs|].spec.family)
    ensures !HasKey((obs + Batch(probe, |obs|, batch))[..i], batch[i - |obs|].spec.layer, batch[i - |obs|].spec.family)
  {
    var done, n := obs + Batch(probe, |obs|, batch), |obs|;
    var e := batch[i - n];
    forall j | 0 <= j < i ensures !Matches(done[..i][j], e.spec.layer, e.spec.family) {
      if j < n {
        assert done[..i][j] == obs[j];
      } else {
        assert done[..i][j].experiment == batch[j - n] && done[..i][j].layer == batch[j - n].spec.layer;
      }
    }
  }

  lemma RunIsPlanned(ident: Ident, prefer6: bool, t: Target, from: nat, s: Survey, a: Attempt)
    requires s.target == Some(t) && from <= |s.observations| && Planned(ident, prefer6, t, from, s.observations)
    ensures var f := Run(ident, FastPolicy(ident, prefer6), s, a).final;
            f.target == Some(t) && from <= |f.observations| && Planned(ident, prefer6, t, from, f.observations)
  {
    hide Planned, FastPolicy, Fresh;
    var pol := FastPolicy(ident, prefer6);
    var inv := (st: Survey) =>
      st.target == Some(t) && from <= |st.observations| && Planned(ident, prefer6, t, from, st.observations);
    forall st: Survey, b: nat | inv(st) && 0 < b && !pol.done(st) && pol.propose(st, b).Success?
      ensures inv(Step(a.probe, st, Fresh(ident, st.observations, {}, pol.propose(st, b).value, b)))
    {
      BatchWasPlanned(ident, prefer6, t, st, b);
      RecordedBatchIsPlanned(ident, prefer6, t, from, st.observations, a.probe,
                             Fresh(ident, st.observations, {}, pol.propose(st, b).value, b));
    }
    RoundsKeep(ident, pol, a.probe, a.expired, s, InitialBudget(a.maxProbes, s), 0, inv);
  }

  lemma {:induction false} ResumesArePlanned(ident: Ident, prefer6: bool, t: Target, from: nat, s: Survey, runs: seq<Attempt>)
    requires s.target == Some(t) && from <= |s.observations| && Planned(ident, prefer6, t, from, s.observations)
    ensures Planned(ident, prefer6, t, from, Resumes(ident, FastPolicy(ident, prefer6), s, runs).observations)
    decreases runs
  {
    hide Planned, FastPolicy, Run;
    if |runs| > 0 {
      RunIsPlanned(ident, prefer6, t, from, s, runs[0]);
      ResumesArePlanned(ident, prefer6, t, from, Run(ident, FastPolicy(ident, prefer6), s, runs[0]).final, runs[1..]);
    }
  }

  /** What any chain of runs adds to any record was planned. */
  lemma AddedIsPlanned(ident: Ident, prefer6: bool, t: Target, s: Survey, runs: seq<Attempt>)
    requires s.target == Some(t)
    ensures Planned(ident, prefer6, t, |s.observations|, Resumes(ident, FastPolicy(ident, prefer6), s, runs).observations)
  {
    hide FastPolicy, Resumes, PlannedOn;
    ResumesArePlanned(ident, prefer6, t, |s.observations|, s, runs);
  }

  lemma PassIsLasting(obs: seq<Observation>, k: nat, i: nat, layer: Layer, family: Family)
    requires k <= i <= |obs| && HasPass(obs[..k], layer, family)
    ensures HasPass(obs[..i], layer, family)
  {
    var j :| 0 <= j < k && Matches(obs[..k][j], layer, family) && obs[..k][j].status == Pass;
    assert obs[..i][j] == obs[..k][j];
  }

  lemma PlannedIsCaused(ident: Ident, prefer6: bool, t: Target, from: nat, obs: seq<Observation>, i: nat)
    requires Planned(ident, prefer6, t, from, obs) && from <= i < |obs|
    ensures var before, o := obs[..i], obs[i];
            && o.layer == o.experiment.spec.layer
            && Prerequisites(t, before, o.experiment)
            && !HasKey(before, o.layer, o.experiment.spec.family)
  {
    hide Plan, HasPass, HasKey, Planned;
    var k := WhenPlanned(ident, prefer6, t, from, obs, i);
    var e := obs[i].experiment;
    PlanPrerequisites(ident, prefer6, t, obs[..k], e);
    forall l, f | HasPass(obs[..k], l, f) ensures HasPass(obs[..i], l, f) { PassIsLasting(obs, k, i, l, f); }
  }

  /** Causal order over whole runs: whatever record a chain of Fast runs and resumes starts from,
      and whatever the outcomes, every observation it adds follows its prerequisites, and its
      layer and family were not probed before. */
  lemma FastCausalOrder(ident: Ident, prefer6: bool, t: Target, s: Survey, runs: seq<Attempt>, i: nat)
    requires s.target == Some(t)
    requires |s.observations| <= i < |Resumes(ident, FastPolicy(ident, prefer6), s, runs).observations|
    ensures var obs := Resumes(ident, FastPolicy(ident, prefer6), s, runs).observations;
            var before, o := obs[..i], obs[i];
            && o.layer == o.experiment.spec.layer
            && Prerequisites(t, before, o.experiment)
            && !HasKey(before, o.layer, o.experiment.spec.family)
  {
    hide FastPolicy, Resumes, Planned, Prerequisites, HasKey;
    AddedIsPlanned(ident, prefer6, t, s, runs);
    PlannedIsCaused(ident, prefer6, t, |s.observations|, Resumes(ident, FastPolicy(ident, prefer6), s, runs).observations, i);
  }

  // ---------------------------------------------------------------------------------------
  // Records that were planned from the start

  lemma PlannedSpec(ident: Ident, prefer6: bool, t: Target, from: nat, obs: seq<Observation>, i: nat)
    requires Planned(ident, prefer6, t, from, obs) && from <= i < |obs|
    ensures obs[i].experiment.spec in FastSpecs(t) && obs[i].layer == obs[i].experiment.spec.layer
    ensures IsCanonical(obs[i].experiment.spec) && (obs[i].layer == LayerDNS ==> obs[i].experiment.spec.family == FamilyAny)
  {
    hide Plan, Make, IsCanonical, HasKey, FastSpecs, Planned;
    var k := WhenPlanned(ident, prefer6, t, from, obs, i);
    var e := obs[i].experiment;
    PlanElement(ident, prefer6, t, obs[..k], e);
    var x :| x in FastSpecs(t) && e == Make(ident, x);
    MadeIsNormal(ident, t, x);
    TreeSpecsCanonical(t, x);
  }

  lemma TreeSpecsCanonical(t: Target, s: Spec)
    requires s in FastSpecs(t)
    ensures IsCanonical(s) && (s.layer == LayerDNS ==> s.family == FamilyAny)
  {
  }

  /** What was planned with a QUIC observation: the first family of a passing DNS answer. */
  ghost predicate QuicFollows(prefer6: bool, obs: seq<Observation>, i: nat, d: nat)
    requires d < i < |obs|
  {
    obs[d].layer == LayerDNS && Families(obs[d], prefer6) != []
    && obs[i].experiment.spec.family == Families(obs[d], prefer6)[0]
  }

  lemma PlannedRecordAt(ident: Ident, prefer6: bool, t: Target, obs: seq<Observation>, i: nat)
    requires Planned(ident, prefer6, t, 0, obs) && i < |obs|
    ensures var o := obs[i];
            && o.layer != LayerUDP
            && (forall k :: 0 <= k < i && obs[k].layer == o.layer ==>
                  o.layer != LayerDNS && obs[k].experiment.spec.family != o.experiment.spec.family)
            && (o.layer == LayerQUIC ==> exists d :: 0 <= d < i && QuicFollows(prefer6, obs, i, d))
  {
    hide Plan, Latest, Families, Prerequisites, IsCanonical, FastSpecs;
    var o := obs[i];
    var k := WhenPlanned(ident, prefer6, t, 0, obs, i);
    PlanQuicFamily(ident, prefer6, t, obs[..k], o.experiment);
    LatestMeaning(obs[..k], LayerDNS, NoFamily);
    PlannedSpec(ident, prefer6, t, 0, obs, i);
    if o.layer == LayerQUIC {
      var d :| 0 <= d < |obs[..k]| && obs[..k][d] == Latest(obs[..k], LayerDNS, NoFamily).value
               && Matches(obs[..k][d], LayerDNS, NoFamily);
      assert obs[d] == obs[..k][d] && QuicFollows(prefer6, obs, i, d);
    }
    forall j | 0 <= j < i && obs[j].layer == o.layer
      ensures o.layer != LayerDNS && obs[j].experiment.spec.family != o.experiment.spec.family
    {
      PlannedSpec(ident, prefer6, t, 0, obs, j);
      assert obs[..i][j] == obs[j] && !Matches(obs[..i][j], o.layer, o.experiment.spec.family);
    }
  }

  /** A fresh Fast survey probes DNS once, QUIC at most once and UDP never. */
  lemma FastProbesOnce(ident: Ident, prefer6: bool, t: Target, obs: seq<Observation>, i: nat, j: nat)
    requires Planned(ident, prefer6, t, 0, obs) && i < j < |obs| && obs[i].layer == obs[j].layer
    ensures obs[j].layer != LayerDNS && obs[j].layer != LayerQUIC && obs[j].layer != LayerUDP
  {
    hide Planned, Families;
    PlannedRecordAt(ident, prefer6, t, obs, i);
    PlannedRecordAt(ident, prefer6, t, obs, j);
    if obs[j].layer == LayerQUIC {
      var d :| 0 <= d < i && QuicFollows(prefer6, obs, i, d);
      var e :| 0 <= e < j && QuicFollows(prefer6, obs, j, e);
      PlannedRecordAt(ident, prefer6, t, obs, d);
      PlannedRecordAt(ident, prefer6, t, obs, e);
    }
  }

  /** The lookups the program makes: a family, or none for the layers probed once. */
  predicate Lookup(layer: Layer, family: Family) {
    family != NoFamily || layer == LayerDNS || layer == LayerUDP || layer == LayerQUIC
  }

  lemma MatchesOnce(ident: Ident, prefer6: bool, t: Target, obs: seq<Observation>, layer: Layer, family: Family, i: nat, j: nat)
    requires Planned(ident, prefer6, t, 0, obs) && Lookup(layer, family) && i < j < |obs|
    requires Matches(obs[i], layer, family)
    ensures !Matches(obs[j], layer, family)
  {
    hide Planned;
    PlannedRecordAt(ident, prefer6, t, obs, j);
    if obs[j].layer == layer && family == NoFamily { FastProbesOnce(ident, prefer6, t, obs, i, j); }
  }

  /** On every record planned from the start, as any chain of Fast runs leaves a fresh survey,
      the latest, the canonical and the first observation of a layer are one, for every layer
      and family, and for DNS, UDP and QUIC with the family left open. */
  lemma FastSelectorsAgree(ident: Ident, prefer6: bool, t: Target, obs: seq<Observation>, layer: Layer, family: Family)
    requires Planned(ident, prefer6, t, 0, obs) && Lookup(layer, family)
    ensures First(obs, layer, family) == Latest(obs, layer, family)
    ensures Pick(obs, layer, family) == Latest(obs, layer, family)
  {
    hide Planned, Latest, LatestCanonical, First, IsCanonical, Pick, FastSpecs;
    forall i, j | 0 <= i < j < |obs| && Matches(obs[i], layer, family) ensures !Matches(obs[j], layer, family) {
      MatchesOnce(ident, prefer6, t, obs, layer, family, i, j);
    }
    forall i | 0 <= i < |obs| && Matches(obs[i], layer, family) ensures MatchesDefault(obs[i], layer, family) {
      PlannedSpec(ident, prefer6, t, 0, obs, i);
    }
    FirstMeaning(obs, layer, family);
    LatestMeaning(obs, layer, family);
    PickMeaning(obs, layer, family);
  }

  /** A greedy record was planned. */
  lemma GreedyIsPlanned(ident: Ident, prefer6: bool, t: Target, from: nat, obs: seq<Observation>)
    requires Greedy(ident, prefer6, t, from, obs)
    ensures Planned(ident, prefer6, t, from, obs)
  {
    hide Plan, Latest;
    forall i | from <= i < |obs| ensures PlannedAt(ident, prefer6, t, obs, i) {
      assert GreedyAt(ident, prefer6, t, obs[..i], obs[i]);
      var e := Plan(ident, prefer6, t, obs[..i])[0];
      PlanElement(ident, prefer6, t, obs[..i], e);
      LatestMeaning(obs[..i], e.spec.layer, e.spec.family);
      assert PlannedOn(ident, prefer6, t, obs, i, i);
    }
  }
}
