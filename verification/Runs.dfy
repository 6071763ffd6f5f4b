/** Whole survey runs as values: one round, one run, and chains of runs and resumes, driven
    by an arbitrary policy and arbitrary probe outcomes. */
module Runs {
  import opened Model
  import opened Dedupe

  const MAX_ROUNDS := 64
  const DEFAULT_MAX_PROBES := 16
  const DEFAULT_MAX_CONCURRENT := 4

  datatype Result<+T> = Success(value: T) | Failure(error: string)

  /** A policy is a pure function of the state. */
  datatype Policy = Policy(done: Survey -> bool, propose: (Survey, nat) -> Result<seq<Experiment>>)

  /** What the network answers to an experiment recorded at a given position: unconstrained,
      so the same experiment may answer differently at another time. */
  type Probe = (nat, Experiment) -> Observation

  /** An observation always names the experiment that was run, and never has an empty status. */
  function Settle(o: Observation, e: Experiment): Observation {
    o.(experiment := e, layer := e.spec.layer,
       status := if o.status == NoStatus then Unknown else o.status)
  }

  function RunOne(probe: Probe, at: nat, e: Experiment): Observation {
    Settle(probe(at, e), e)
  }

  function Batch(probe: Probe, at: nat, exps: seq<Experiment>): seq<Observation> {
    seq(|exps|, i requires 0 <= i < |exps| => RunOne(probe, at + i, exps[i]))
  }

  function Step(probe: Probe, s: Survey, exps: seq<Experiment>): Survey {
    Survey(s.target, s.round + 1,
           s.observations + Batch(probe, |s.observations|, exps),
           s.rounds + [Round(s.round, exps)])
  }

  datatype Stop = ContextOver | BudgetSpent | PolicyDone | NothingNew | RoundLimit | ProposeFailed(error: string)

  datatype Ended = Ended(final: Survey, why: Stop)

  /** The rounds of one run from round `k` on. `expired(k)` says that the context is over
      when round `k` is about to start. */
  function Rounds(ident: Ident, pol: Policy, probe: Probe, expired: nat -> bool,
                  s: Survey, budget: int, k: nat): Ended
    requires k <= MAX_ROUNDS
    decreases MAX_ROUNDS - k
  {
    if k == MAX_ROUNDS then Ended(s, RoundLimit)
    else if expired(k) then Ended(s, ContextOver)
    else if budget <= 0 then Ended(s, BudgetSpent)
    else if pol.done(s) then Ended(s, PolicyDone)
    else match pol.propose(s, budget)
      case Failure(error) => Ended(s, ProposeFailed(error))
      case Success(exps) =>
        var batch := Fresh(ident, s.observations, {}, exps, budget);
        if batch == [] then Ended(s, NothingNew)
        else Rounds(ident, pol, probe, expired, Step(probe, s, batch), budget - |batch|, k + 1)
  }

  function FillMaxProbes(maxProbes: int): nat {
    if maxProbes <= 0 then DEFAULT_MAX_PROBES else maxProbes
  }

  function InitialBudget(maxProbes: int, s: Survey): nat {
    var b := FillMaxProbes(maxProbes) - |s.observations|;
    if b < 0 then 0 else b
  }

  /** One run, started batch or resumed. */
  datatype Attempt = Attempt(maxProbes: int, probe: Probe, expired: nat -> bool)

  function Run(ident: Ident, pol: Policy, s: Survey, a: Attempt): Ended {
    Rounds(ident, pol, a.probe, a.expired, s, InitialBudget(a.maxProbes, s), 0)
  }

  /** A chain of runs, each resuming where the one before stopped. */
  function Resumes(ident: Ident, pol: Policy, s: Survey, runs: seq<Attempt>): Survey
    decreases runs
  {
    if |runs| == 0 then s else Resumes(ident, pol, Run(ident, pol, s, runs[0]).final, runs[1..])
  }

  // ---------------------------------------------------------------------------------------
  // Safety for every policy

  ghost function Proposed(rounds: seq<Round>): seq<Experiment> {
    if |rounds| == 0 then [] else Proposed(rounds[..|rounds| - 1]) + rounds[|rounds| - 1].proposed
  }

  ghost function Experiments(obs: seq<Observation>): seq<Experiment> {
    seq(|obs|, i requires 0 <= i < |obs| => obs[i].experiment)
  }

  /** `f` continues `s`: what was recorded is an unchanged prefix; every new observation has a
      new, normalized experiment; the new rounds carry consecutive indices, and what they
      proposed is exactly what was recorded, in order. */
  ghost predicate Continues(ident: Ident, s: Survey, f: Survey) {
    && f.target == s.target
    && s.observations <= f.observations
    && s.rounds <= f.rounds
    && f.round == s.round + (|f.rounds| - |s.rounds|)
    && Experiments(f.observations[|s.observations|..]) == Proposed(f.rounds[|s.rounds|..])
    && (forall j :: |s.rounds| <= j < |f.rounds| ==> f.rounds[j].index == s.round + (j - |s.rounds|))
    && (forall j :: |s.observations| <= j < |f.observations| ==> NewlyRecorded(ident, f.observations, j))
  }

  ghost predicate NewlyRecorded(ident: Ident, obs: seq<Observation>, j: nat)
    requires j < |obs|
  {
    var o := obs[j];
    && o.experiment.id != ""
    && Normalize(ident, o.experiment) == o.experiment
    && o.layer == o.experiment.spec.layer
    && o.status != NoStatus
    && forall i :: 0 <= i < j ==> obs[i].experiment.id != o.experiment.id
  }

  lemma BatchIsNew(ident: Ident, probe: Probe, s: Survey, batch: seq<Experiment>, j: nat)
    requires DistinctIds(batch) && Normal(ident, batch) && Unrecorded(s.observations, {}, batch)
    requires |s.observations| <= j < |s.observations| + |batch|
    ensures NewlyRecorded(ident, Step(probe, s, batch).observations, j)
  {
    var n := |s.observations|;
    var obs := Step(probe, s, batch).observations;
    var e := batch[j - n];
    assert e in batch && obs[j] == RunOne(probe, j, e);
    forall i | 0 <= i < j ensures obs[i].experiment.id != e.id {
      if i < n {
        assert obs[i] == s.observations[i];
      } else {
        assert obs[i].experiment == batch[i - n];
      }
    }
  }

  lemma StepContinues(ident: Ident, probe: Probe, s: Survey, batch: seq<Experiment>)
    requires DistinctIds(batch) && Normal(ident, batch) && Unrecorded(s.observations, {}, batch)
    ensures Continues(ident, s, Step(probe, s, batch))
  {
    var f := Step(probe, s, batch);
    var n := |s.observations|;
    assert f.rounds[|s.rounds|..] == [Round(s.round, batch)];
    assert Proposed([Round(s.round, batch)]) == batch by {
      assert [Round(s.round, batch)][..0] == [];
    }
    assert Experiments(f.observations[n..]) == batch;
    forall j | n <= j < |f.observations| ensures NewlyRecorded(ident, f.observations, j) {
      BatchIsNew(ident, probe, s, batch, j);
    }
  }

  lemma {:induction false} ProposedConcat(a: seq<Round>, b: seq<Round>)
    ensures Proposed(a + b) == Proposed(a) + Proposed(b)
  {
    if |b| == 0 {
      assert a + b == a;
    } else {
      var n := |b| - 1;
      ProposedConcat(a, b[..n]);
      assert (a + b)[..|a + b| - 1] == a + b[..n];
      assert (a + b)[|a + b| - 1] == b[n];
      assert Proposed(a + b) == Proposed(a + b[..n]) + b[n].proposed;
      assert Proposed(b) == Proposed(b[..n]) + b[n].proposed;
    }
  }

  lemma ContinuesTransitive(ident: Ident, s: Survey, m: Survey, f: Survey)
    requires Continues(ident, s, m) && Continues(ident, m, f)
    ensures Continues(ident, s, f)
  {
    var o0, o1 := |s.observations|, |m.observations|;
    var r0, r1 := |s.rounds|, |m.rounds|;
    assert f.observations[..o1] == m.observations && f.rounds[..r1] == m.rounds;
    assert f.observations[o0..] == m.observations[o0..] + f.observations[o1..];
    assert f.rounds[r0..] == m.rounds[r0..] + f.rounds[r1..];
    ProposedConcat(m.rounds[r0..], f.rounds[r1..]);
    assert Experiments(f.observations[o0..]) ==
           Experiments(m.observations[o0..]) + Experiments(f.observations[o1..]);
    forall j | o0 <= j < |f.observations| ensures NewlyRecorded(ident, f.observations, j) {
      if j < o1 { assert NewlyRecorded(ident, m.observations, j); }
    }
    forall j | r0 <= j < |f.rounds| ensures f.rounds[j].index == s.round + (j - r0) {
      if j < r1 { assert f.rounds[j] == m.rounds[j]; }
    }
  }

  lemma ContinuesItself(ident: Ident, s: Survey)
    ensures Continues(ident, s, s)
  {
    assert s.rounds[|s.rounds|..] == [] && s.observations[|s.observations|..] == [];
  }

  /** Whatever the policy proposes and the probes answer, a run continues its state, stays
      within the budget and within the round limit. */
  lemma {:induction false} RoundsAreSafe(ident: Ident, pol: Policy, probe: Probe, expired: nat -> bool,
                                         s: Survey, budget: int, k: nat)
    requires k <= MAX_ROUNDS
    ensures var f := Rounds(ident, pol, probe, expired, s, budget, k).final;
            && Continues(ident, s, f)
            && |f.observations| <= |s.observations| + (if budget < 0 then 0 else budget)
            && |f.rounds| - |s.rounds| <= MAX_ROUNDS - k
            && |f.rounds| - |s.rounds| <= |f.observations| - |s.observations|
    decreases MAX_ROUNDS - k
  {
    hide Fresh, Continues, Normal, Unrecorded, DistinctIds;
    ContinuesItself(ident, s);
    if k < MAX_ROUNDS && !expired(k) && budget > 0 && !pol.done(s) && pol.propose(s, budget).Success? {
      var exps := pol.propose(s, budget).value;
      var batch := Fresh(ident, s.observations, {}, exps, budget);
      if batch != [] {
        var m := Step(probe, s, batch);
        FreshIsSound(ident, s.observations, {}, exps, budget);
        StepContinues(ident, probe, s, batch);
        RoundsAreSafe(ident, pol, probe, expired, m, budget - |batch|, k + 1);
        ContinuesTransitive(ident, s, m, Rounds(ident, pol, probe, expired, m, budget - |batch|, k + 1).final);
      }
    }
  }

  /** Runner safety over any chain of runs and resumes: completed experiments are never rerun
      or changed, and the count never exceeds the larger of the initial count and the largest
      allowance given to any run. */
  lemma {:induction false} ResumesAreSafe(ident: Ident, pol: Policy, s: Survey, runs: seq<Attempt>, cap: nat)
    requires forall a :: a in runs ==> FillMaxProbes(a.maxProbes) <= cap
    ensures var f := Resumes(ident, pol, s, runs);
            && Continues(ident, s, f)
            && |f.observations| <= (if cap < |s.observations| then |s.observations| else cap)
    decreases runs
  {
    if |runs| == 0 {
      assert s.rounds[|s.rounds|..] == [] && s.observations[|s.observations|..] == [];
    } else {
      var a := runs[0];
      assert a in runs;
      var m := Run(ident, pol, s, a).final;
      RoundsAreSafe(ident, pol, a.probe, a.expired, s, InitialBudget(a.maxProbes, s), 0);
      ResumesAreSafe(ident, pol, m, runs[1..], cap);
      ContinuesTransitive(ident, s, m, Resumes(ident, pol, m, runs[1..]));
    }
  }

  /** An allowance that covers every run of a chain. */
  function CapOf(runs: seq<Attempt>): (cap: nat)
    ensures forall a :: a in runs ==> FillMaxProbes(a.maxProbes) <= cap
  {
    if |runs| == 0 then 0
    else
      var rest, first := CapOf(runs[1..]), FillMaxProbes(runs[0].maxProbes);
      if first < rest then rest else first
  }

  // ---------------------------------------------------------------------------------------
  // Induction principles

  /** An invariant that every round keeps holds at the end of every run. */
  lemma {:induction false} RoundsKeep(ident: Ident, pol: Policy, probe: Probe, expired: nat -> bool,
                                      s: Survey, budget: int, k: nat, inv: Survey -> bool)
    requires k <= MAX_ROUNDS
    requires inv(s)
    requires forall st: Survey, b: nat :: inv(st) && 0 < b && !pol.done(st) && pol.propose(st, b).Success? ==>
               inv(Step(probe, st, Fresh(ident, st.observations, {}, pol.propose(st, b).value, b)))
    ensures inv(Rounds(ident, pol, probe, expired, s, budget, k).final)
    decreases MAX_ROUNDS - k
  {
    if k < MAX_ROUNDS && !expired(k) && budget > 0 && !pol.done(s) && pol.propose(s, budget).Success? {
      var batch := Fresh(ident, s.observations, {}, pol.propose(s, budget).value, budget);
      if batch != [] {
        RoundsKeep(ident, pol, probe, expired, Step(probe, s, batch), budget - |batch|, k + 1, inv);
      }
    }
  }

  ghost function IdsOfSpecs(ident: Ident, specs: set<Spec>): set<string> {
    set s | s in specs :: ident(s)
  }

  lemma {:induction false} IdsOfSpecsCount(ident: Ident, specs: set<Spec>)
    ensures |IdsOfSpecs(ident, specs)| <= |specs|
    decreases |specs|
  {
    if specs != {} {
      var s :| s in specs;
      IdsOfSpecsCount(ident, specs - {s});
      assert IdsOfSpecs(ident, specs) == IdsOfSpecs(ident, specs - {s}) + {ident(s)};
    } else {
      assert IdsOfSpecs(ident, specs) == {};
    }
  }

  /** Termination by exhaustion. If, on the states of an invariant, everything the policy gets
      through deduplication carries an ID of a finite universe, a run records at most the
      unrecorded part of that universe, one ID or more a round, and the round limit is not
      what stops it. */
  lemma {:induction false} RoundsExhaust(ident: Ident, pol: Policy, probe: Probe, expired: nat -> bool,
                                         s: Survey, budget: int, k: nat,
                                         universe: set<string>, inv: Survey -> bool)
    requires k <= MAX_ROUNDS
    requires inv(s)
    requires forall st: Survey, b: nat :: inv(st) && 0 < b && !pol.done(st) && pol.propose(st, b).Success? ==>
               var batch := Fresh(ident, st.observations, {}, pol.propose(st, b).value, b);
               inv(Step(probe, st, batch)) && IdsOf(batch) <= universe
    requires |universe - Ids(s.observations)| < MAX_ROUNDS - k
    ensures var r := Rounds(ident, pol, probe, expired, s, budget, k);
            && |r.final.rounds| - |s.rounds| <= |universe - Ids(s.observations)|
            && |r.final.observations| - |s.observations| <= |universe - Ids(s.observations)|
            && !r.why.RoundLimit?
            && (r.why.BudgetSpent? ==> budget <= |universe - Ids(s.observations)|)
    decreases MAX_ROUNDS - k
  {
    hide Fresh, Ids, IdsOf, RunOne;
    if !expired(k) && budget > 0 && !pol.done(s) && pol.propose(s, budget).Success? {
      var exps := pol.propose(s, budget).value;
      var batch := Fresh(ident, s.observations, {}, exps, budget);
      if batch != [] {
        FreshIsSound(ident, s.observations, {}, exps, budget);
        BatchShrinks(probe, s, batch, universe);
        RoundsExhaust(ident, pol, probe, expired, Step(probe, s, batch), budget - |batch|, k + 1, universe, inv);
      }
    }
  }

  lemma BatchShrinks(probe: Probe, s: Survey, batch: seq<Experiment>, universe: set<string>)
    requires DistinctIds(batch) && Unrecorded(s.observations, {}, batch) && IdsOf(batch) <= universe
    ensures |universe - Ids(Step(probe, s, batch).observations)| == |universe - Ids(s.observations)| - |batch|
  {
    hide Step, Batch, HasExperiment;
    StepIds(probe, s, batch);
    forall id | id in IdsOf(batch) ensures id !in Ids(s.observations) {
      var e :| e in batch && e.id == id;
      HasExperimentIsIn(s.observations, id);
    }
    DistinctIdsCount(batch);
    var free := universe - Ids(s.observations);
    assert IdsOf(batch) <= free;
    assert universe - Ids(Step(probe, s, batch).observations) == free - IdsOf(batch);
  }

  lemma StepIds(probe: Probe, s: Survey, batch: seq<Experiment>)
    ensures Ids(Step(probe, s, batch).observations) == Ids(s.observations) + IdsOf(batch)
  {
    var more := Batch(probe, |s.observations|, batch);
    var f := Step(probe, s, batch).observations;
    forall id | id in IdsOf(batch) ensures id in Ids(f) {
      var e :| e in batch && e.id == id;
      var i :| 0 <= i < |batch| && batch[i] == e;
      assert more[i].experiment == e && f[|s.observations| + i] == more[i];
    }
    forall id | id in Ids(f) ensures id in Ids(s.observations) + IdsOf(batch) {
      var o :| o in f && o.experiment.id == id;
      if o !in s.observations {
        var i :| 0 <= i < |more| && more[i] == o;
        assert batch[i] in batch;
      }
    }
  }

  lemma {:induction false} DistinctIdsCount(exps: seq<Experiment>)
    requires DistinctIds(exps)
    ensures |IdsOf(exps)| == |exps|
  {
    if |exps| > 0 {
      var n := |exps| - 1;
      DistinctIdsCount(exps[..n]);
      assert exps == exps[..n] + [exps[n]];
      assert IdsOf(exps) == IdsOf(exps[..n]) + {exps[n].id};
      assert exps[n].id !in IdsOf(exps[..n]);
    }
  }

  /** A run that stops because its budget is spent has recorded exactly the budget. */
  lemma {:induction false} BudgetSpentExactly(ident: Ident, pol: Policy, probe: Probe, expired: nat -> bool,
                                              s: Survey, budget: nat, k: nat)
    requires k <= MAX_ROUNDS
    requires Rounds(ident, pol, probe, expired, s, budget, k).why.BudgetSpent?
    ensures |Rounds(ident, pol, probe, expired, s, budget, k).final.observations| == |s.observations| + budget
    decreases MAX_ROUNDS - k
  {
    hide Fresh, RunOne, DistinctIds, Normal, Unrecorded;
    if budget > 0 {
      var batch := Fresh(ident, s.observations, {}, pol.propose(s, budget).value, budget);
      FreshIsSound(ident, s.observations, {}, pol.propose(s, budget).value, budget);
      BudgetSpentExactly(ident, pol, probe, expired, Step(probe, s, batch), budget - |batch|, k + 1);
    }
  }

  /** A run that stops at the round limit has used all sixty-four rounds. */
  lemma {:induction false} RoundLimitExactly(ident: Ident, pol: Policy, probe: Probe, expired: nat -> bool,
                                             s: Survey, budget: int, k: nat)
    requires k <= MAX_ROUNDS
    requires Rounds(ident, pol, probe, expired, s, budget, k).why.RoundLimit?
    ensures |Rounds(ident, pol, probe, expired, s, budget, k).final.rounds| == |s.rounds| + 64 - k
    decreases MAX_ROUNDS - k
  {
    hide Fresh, RunOne;
    if k < MAX_ROUNDS {
      var batch := Fresh(ident, s.observations, {}, pol.propose(s, budget).value, budget);
      RoundLimitExactly(ident, pol, probe, expired, Step(probe, s, batch), budget - |batch|, k + 1);
    }
  }

  /** With its options unset, a run takes a state of at most sixteen observations to at most sixteen, and
      to exactly that many when its budget stops it; the round limit never does. */
  lemma DefaultLimits(ident: Ident, pol: Policy, s: Survey, a: Attempt)
    requires a.maxProbes <= 0 && |s.observations| <= 16
    ensures var r := Run(ident, pol, s, a);
            && |r.final.observations| <= 16 && (r.why.BudgetSpent? ==> |r.final.observations| == 16)
            && |r.final.rounds| - |s.rounds| <= 16 && !r.why.RoundLimit?
  {
    hide Rounds, Continues;
    RoundsAreSafe(ident, pol, a.probe, a.expired, s, InitialBudget(a.maxProbes, s), 0);
    var r := Run(ident, pol, s, a);
    if r.why.BudgetSpent? { BudgetSpentExactly(ident, pol, a.probe, a.expired, s, InitialBudget(a.maxProbes, s), 0); }
    if r.why.RoundLimit? { RoundLimitExactly(ident, pol, a.probe, a.expired, s, InitialBudget(a.maxProbes, s), 0); }
  }

  /** Recording changes an observation in nothing but its experiment, its layer and an empty status. */
  lemma SettleKeeps(o: Observation, e: Experiment)
    ensures var r := Settle(o, e);
            && r == Observation(e, e.spec.layer, r.status, o.duration, o.evidence, o.addresses, o.error)
            && (r.status, o.status) in {(Pass, Pass), (Fail, Fail), (Timeout, Timeout), (Skipped, Skipped),
                                        (Unknown, Unknown), (Unknown, NoStatus)}
  {
  }

  /** If on the states of an invariant an unfinished policy always proposes something new, a run
      ends only because the policy is done, the budget is spent, the context is over, or the
      round limit is reached. */
  lemma {:induction false} RoundsProgress(ident: Ident, pol: Policy, probe: Probe, expired: nat -> bool,
                                          s: Survey, budget: int, k: nat, inv: Survey -> bool)
    requires k <= MAX_ROUNDS
    requires inv(s)
    requires forall st: Survey, b: nat :: inv(st) && 0 < b && !pol.done(st) ==>
               pol.propose(st, b).Success? &&
               var batch := Fresh(ident, st.observations, {}, pol.propose(st, b).value, b);
               batch != [] && inv(Step(probe, st, batch))
    ensures var r := Rounds(ident, pol, probe, expired, s, budget, k);
            && !r.why.NothingNew? && !r.why.ProposeFailed?
            && inv(r.final) && (r.why.PolicyDone? ==> pol.done(r.final))
            && (r.why.ContextOver? ==> exists j :: k <= j && expired(j))
    decreases MAX_ROUNDS - k
  {
    hide Fresh, Step;
    if k < MAX_ROUNDS && !expired(k) && budget > 0 && !pol.done(s) {
      var batch := Fresh(ident, s.observations, {}, pol.propose(s, budget).value, budget);
      RoundsProgress(ident, pol, probe, expired, Step(probe, s, batch), budget - |batch|, k + 1, inv);
    }
  }
}
