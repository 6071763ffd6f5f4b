/** When interrupting and resuming an Adaptive survey changes nothing. */
module AdaptiveResume {
  import opened Model
  import opened Dedupe
  import opened Runs
  import opened Fast
  import opened FastRuns
  import opened FastSequence
  import opened Adaptive
  import opened AdaptiveRuns

  /** The experiments that can still be proposed. */
  ghost function Open(ident: Ident, t: Target, s: Survey): set<string> {
    IdsOfSpecs(ident, Universe(t)) - Ids(s.observations)
  }

  /** What is proposed when the budget does not matter. */
  function Full(ident: Ident, prefer6: bool, s: Survey): seq<Experiment> { Propose(ident, prefer6, s, 20) }

  // ---------------------------------------------------------------------------------------
  // A budget for everything that is open is as good as any

  lemma FreshWithin(ident: Ident, t: Target, s: Survey, exps: seq<Experiment>, budget: nat)
    requires forall e :: e in exps ==> InUniverse(ident, t, e)
    ensures |Fresh(ident, s.observations, {}, exps, budget)| <= |Open(ident, t, s)|
  {
    hide Fresh, Universe, Normalize, HasExperiment;
    var obs := s.observations;
    var out := Fresh(ident, obs, {}, exps, budget);
    FreshIsSound(ident, obs, {}, exps, budget);
    DistinctIdsCount(out);
    forall id | id in IdsOf(out) ensures id in Open(ident, t, s) {
      var e :| e in out && e.id == id;
      FreshWasProposed(ident, obs, {}, exps, budget, e);
      var p :| p in exps && e == Normalize(ident, p);
      HasExperimentIsIn(obs, id);
    }
    SubsetSize(IdsOf(out), Open(ident, t, s));
  }

  lemma SubsetSize<T>(a: set<T>, b: set<T>)
    requires a <= b
    ensures |a| <= |b|
  {
    assert b == a + (b - a);
  }

  lemma FreshUncut(ident: Ident, t: Target, s: Survey, exps: seq<Experiment>, b: nat, c: nat)
    requires forall e :: e in exps ==> InUniverse(ident, t, e)
    requires |Open(ident, t, s)| <= b <= c
    ensures Fresh(ident, s.observations, {}, exps, b) == Fresh(ident, s.observations, {}, exps, c)
  {
    hide Fresh, Open, InUniverse;
    FreshPrefix(ident, s.observations, {}, exps, b, c);
    FreshWithin(ident, t, s, exps, c);
  }

  lemma PlanInUniverse(ident: Ident, prefer6: bool, t: Target, s: Survey)
    requires s.target == Some(t)
    ensures forall e :: e in PlanOf(ident, prefer6, s) ==> InUniverse(ident, t, e)
  {
    hide Plan, InUniverse, FastSpecs;
    forall e | e in PlanOf(ident, prefer6, s) ensures InUniverse(ident, t, e) {
      TreeInUniverse(ident, prefer6, t, s.observations, e);
    }
  }

  lemma BestIsSound(ident: Ident, prefer6: bool, t: Target, s: Survey, budget: nat, e: Experiment)
    requires s.target == Some(t)
    requires e in Best(Ranked(s.observations, CandidatesOf(ident, prefer6, s)), budget)
    ensures InUniverse(ident, t, e) && !HasExperiment(s.observations, e.id)
  {
    hide Candidates, InUniverse, HasExperiment, Ranked, Best;
    var cs := Candidates(ident, prefer6, t, s.observations);
    RankedElement(s.observations, cs, budget, e);
    var c :| c in cs && c.exp == e;
    CandidateSound(ident, prefer6, t, s.observations, c);
  }

  /** Of a pair whose first is new, a budget of one keeps the first. */
  lemma FirstOfPair(ident: Ident, obs: seq<Observation>, exps: seq<Experiment>)
    requires |exps| > 0 && Normalize(ident, exps[0]) == exps[0] && exps[0].id != "" && !HasExperiment(obs, exps[0].id)
    ensures Fresh(ident, obs, {}, exps, 1) == Fresh(ident, obs, {}, exps[..1], 1) == [exps[0]]
  {
    hide Normalize, HasExperiment;
  }

  lemma ChoiceUncut(ident: Ident, prefer6: bool, t: Target, s: Survey, b: nat, c: nat)
    requires s.target == Some(t) && 0 < b <= c && |Open(ident, t, s)| <= b
    ensures var ranked := Ranked(s.observations, CandidatesOf(ident, prefer6, s));
            Fresh(ident, s.observations, {}, Best(ranked, b), b) == Fresh(ident, s.observations, {}, Best(ranked, c), c)
  {
    hide CandidatesOf, Ranked, Open, InUniverse, Fresh, HasExperiment, Normalize;
    var ranked := Ranked(s.observations, CandidatesOf(ident, prefer6, s));
    var whole := Best(ranked, c);
    forall e | e in whole ensures InUniverse(ident, t, e) && !HasExperiment(s.observations, e.id) {
      BestIsSound(ident, prefer6, t, s, c, e);
    }
    FreshUncut(ident, t, s, whole, b, c);
    if b == 1 && |whole| > 0 {
      assert Best(ranked, 1) == whole[..1];
      assert whole[0] in whole;
      UniverseIsNormal(ident, t, whole[0]);
      FirstOfPair(ident, s.observations, whole);
    } else {
      assert Best(ranked, b) == whole;
    }
  }

  lemma UniverseIsNormal(ident: Ident, t: Target, e: Experiment)
    requires InUniverse(ident, t, e)
    ensures Normalize(ident, e) == e && e.id != ""
  {
    hide Universe;
    NormalizeIdempotent(ident, e);
  }

  lemma ProposalUncut(ident: Ident, prefer6: bool, t: Target, s: Survey, b: nat)
    requires s.target == Some(t) && 0 < b && |Open(ident, t, s)| <= b
    ensures Propose(ident, prefer6, s, b) == Full(ident, prefer6, s)
  {
    hide PlanOf, CandidatesOf, Ranked, Best, Fresh, Open, InUniverse;
    OpenIsSmall(ident, t, s);
    PlanInUniverse(ident, prefer6, t, s);
    if b <= 20 {
      FreshUncut(ident, t, s, PlanOf(ident, prefer6, s), b, 20);
      ChoiceUncut(ident, prefer6, t, s, b, 20);
    } else {
      FreshUncut(ident, t, s, PlanOf(ident, prefer6, s), 20, b);
      ChoiceUncut(ident, prefer6, t, s, 20, b);
    }
  }

  lemma OpenIsSmall(ident: Ident, t: Target, s: Survey)
    ensures |Open(ident, t, s)| <= 20
  {
    hide Universe, Ids, IdsOfSpecs;
    UniverseIsSmall(t);
    IdsOfSpecsCount(ident, Universe(t));
    SubsetSize(Open(ident, t, s), IdsOfSpecs(ident, Universe(t)));
  }

  // ---------------------------------------------------------------------------------------
  // The states of an uncut survey

  function Network(answer: Answer): Probe { (at: nat, e: Experiment) => answer(e) }

  /** The state after `n` uncut rounds. */
  function Orbit(ident: Ident, prefer6: bool, answer: Answer, s: Survey, n: nat): Survey {
    if n == 0 then s
    else
      var before := Orbit(ident, prefer6, answer, s, n - 1);
      if Full(ident, prefer6, before) == [] then before
      else Step(Network(answer), before, Full(ident, prefer6, before))
  }

  lemma SameStep(answer: Answer, probe: Probe, s: Survey, batch: seq<Experiment>)
    requires forall at: nat, e: Experiment :: probe(at, e) == answer(e)
    ensures Step(probe, s, batch) == Step(Network(answer), s, batch)
  {
    assert Batch(probe, |s.observations|, batch) == Batch(Network(answer), |s.observations|, batch);
  }

  lemma {:induction false} OrbitRests(ident: Ident, prefer6: bool, answer: Answer, s: Survey, n: nat, m: nat)
    requires n <= m && Full(ident, prefer6, Orbit(ident, prefer6, answer, s, n)) == []
    ensures Orbit(ident, prefer6, answer, s, m) == Orbit(ident, prefer6, answer, s, n)
    decreases m
  {
    hide Full, Step;
    if n < m { OrbitRests(ident, prefer6, answer, s, n, m - 1); }
  }

  lemma OrbitNext(ident: Ident, prefer6: bool, answer: Answer, start: Survey, n: nat)
    requires Full(ident, prefer6, Orbit(ident, prefer6, answer, start, n)) != []
    ensures var s := Orbit(ident, prefer6, answer, start, n);
            Orbit(ident, prefer6, answer, start, n + 1) == Step(Network(answer), s, Full(ident, prefer6, s))
  {
    hide Full, Step;
  }

  lemma StepCloses(ident: Ident, prefer6: bool, t: Target, s: Survey, probe: Probe, b: nat)
    requires s.target == Some(t)
    ensures var batch := Propose(ident, prefer6, s, b);
            var f := Step(probe, s, batch);
            f.target == Some(t) && |Open(ident, t, f)| == |Open(ident, t, s)| - |batch|
            && |f.observations| == |s.observations| + |batch|
  {
    hide Propose, Universe, IdsOfSpecs, Ids, HasExperiment, Fresh, IdsOf;
    var batch := Propose(ident, prefer6, s, b);
    RunnerKeepsProposal(ident, prefer6, s, b);
    FreshIsSound(ident, s.observations, {}, batch, b);
    ProposedIds(ident, prefer6, t, s, b);
    BatchShrinks(probe, s, batch, IdsOfSpecs(ident, Universe(t)));
  }

  /** With a budget for everything open, every state of a run is a state of the uncut survey. */
  lemma {:induction false} RoundsOnOrbit(ident: Ident, prefer6: bool, t: Target, answer: Answer, start: Survey, n: nat,
                                         probe: Probe, expired: nat -> bool, s: Survey, budget: nat, k: nat)
    returns (m: nat)
    requires k <= MAX_ROUNDS && s.target == Some(t)
    requires forall at: nat, e: Experiment :: probe(at, e) == answer(e)
    requires s == Orbit(ident, prefer6, answer, start, n) && |Open(ident, t, s)| <= budget
    ensures var f := Rounds(ident, AdaptivePolicy(ident, prefer6), probe, expired, s, budget, k).final;
            && f == Orbit(ident, prefer6, answer, start, m) && f.target == Some(t)
            && |f.observations| >= |s.observations|
            && |Open(ident, t, f)| + (|f.observations| - |s.observations|) == |Open(ident, t, s)|
    decreases MAX_ROUNDS - k
  {
    hide Propose, Step, Open, PlanOf, CandidatesOf, Orbit, Full, Fresh;
    m := n;
    var pol := AdaptivePolicy(ident, prefer6);
    if k < MAX_ROUNDS && !expired(k) && budget > 0 && !pol.done(s) {
      var batch := Propose(ident, prefer6, s, budget);
      RunnerKeepsProposal(ident, prefer6, s, budget);
      if batch != [] {
        ProposalUncut(ident, prefer6, t, s, budget);
        SameStep(answer, probe, s, batch);
        StepCloses(ident, prefer6, t, s, probe, budget);
        OrbitNext(ident, prefer6, answer, start, n);
        m := RoundsOnOrbit(ident, prefer6, t, answer, start, n + 1, probe, expired, Step(probe, s, batch),
                           budget - |batch|, k + 1);
      }
    }
  }

  /** Every run of the chain may record at least twenty more than the survey started with. */
  ghost predicate Roomy(answer: Answer, start: nat, runs: seq<Attempt>) {
    forall a :: a in runs ==> Consistent(answer, a) && FillMaxProbes(a.maxProbes) >= start + 20
  }

  lemma {:induction false} ResumesOnOrbit(ident: Ident, prefer6: bool, t: Target, answer: Answer, start: Survey, n: nat,
                                          s: Survey, runs: seq<Attempt>)
    returns (m: nat)
    requires s.target == Some(t) && s == Orbit(ident, prefer6, answer, start, n)
    requires |start.observations| <= |s.observations|
    requires |Open(ident, t, s)| + (|s.observations| - |start.observations|) <= 20
    requires Roomy(answer, |start.observations|, runs)
    ensures Resumes(ident, AdaptivePolicy(ident, prefer6), s, runs) == Orbit(ident, prefer6, answer, start, m)
    decreases runs
  {
    hide AdaptivePolicy, Open, Orbit, Rounds;
    m := n;
    if |runs| > 0 {
      var a := runs[0];
      assert a in runs && forall x :: x in runs[1..] ==> x in runs;
      m := RoundsOnOrbit(ident, prefer6, t, answer, start, n, a.probe, a.expired, s, InitialBudget(a.maxProbes, s), 0);
      m := ResumesOnOrbit(ident, prefer6, t, answer, start, m, Run(ident, AdaptivePolicy(ident, prefer6), s, a).final, runs[1..]);
    }
  }

  /** Resume equivalence for Adaptive: against a network that answers consistently, from any
      state, chains of runs that each may record twenty more than that state holds leave the
      same state once they are done, wherever they were interrupted. */
  lemma RoomyChainsAgree(ident: Ident, prefer6: bool, t: Target, answer: Answer, s: Survey,
                         runs: seq<Attempt>, others: seq<Attempt>)
    requires s.target == Some(t)
    requires Roomy(answer, |s.observations|, runs) && Roomy(answer, |s.observations|, others)
    requires var pol := AdaptivePolicy(ident, prefer6);
             pol.done(Resumes(ident, pol, s, runs)) && pol.done(Resumes(ident, pol, s, others))
    ensures var pol := AdaptivePolicy(ident, prefer6);
            Resumes(ident, pol, s, runs) == Resumes(ident, pol, s, others)
  {
    hide Resumes, Orbit, Open, PlanOf, CandidatesOf, Propose, Roomy;
    OpenIsSmall(ident, t, s);
    assert s == Orbit(ident, prefer6, answer, s, 0) by { OrbitStarts(ident, prefer6, answer, s); }
    var m := ResumesOnOrbit(ident, prefer6, t, answer, s, 0, s, runs);
    var n := ResumesOnOrbit(ident, prefer6, t, answer, s, 0, s, others);
    NothingToPropose(ident, prefer6, Orbit(ident, prefer6, answer, s, m), 20);
    NothingToPropose(ident, prefer6, Orbit(ident, prefer6, answer, s, n), 20);
    if m <= n {
      OrbitRests(ident, prefer6, answer, s, m, n);
    } else {
      OrbitRests(ident, prefer6, answer, s, n, m);
    }
  }

  lemma OrbitStarts(ident: Ident, prefer6: bool, answer: Answer, s: Survey)
    ensures Orbit(ident, prefer6, answer, s, 0) == s
  {
  }
}
