/** The survey runner: the propose, deduplicate, execute, record loop over the mutable state. */
module Runner {
  import opened Model
  import opened Dedupe
  import opened Runs
  import opened RunBatch
  import opened Infer
  import opened Fast

  datatype Options = Options(maxProbes: int, maxConcurrent: int)

  function FillMaxConcurrent(n: int): nat {
    if n <= 0 then DEFAULT_MAX_CONCURRENT else n
  }

  /** No more experiments run at once than the option says, four when it is unset; while fewer do, and
      some are left, another can start. */
  lemma ConcurrencyLimit(exps: seq<Experiment>, n: int, trace: seq<RunBatch.Action>, b: BatchState)
    requires RunBatch.Reached(exps, FillMaxConcurrent(n), trace, b)
    ensures var limit := if n <= 0 then 4 else n;
            && |b.running| <= limit
            && (RunBatch.Enabled(exps, FillMaxConcurrent(n), b, Start) <==> b.next < |exps| && |b.running| < limit)
  {
    hide RunBatch.Reached;
    BatchInvariant(exps, FillMaxConcurrent(n), trace, b);
  }

  datatype Report = Report(target: Target, observations: seq<Observation>, findings: seq<Finding>,
                           state: SurveyState)

  datatype SurveyError = NilState | NoTarget | PolicyFailed(error: string) | AddFailed

  /** `contextOver` is the parent context's error, returned beside the report. */
  datatype Outcome = Reported(report: Report, contextOver: bool) | Refused(error: SurveyError)

  /** The run a survey amounts to. */
  ghost function RunOf(ident: Ident, opts: Options, pol: Option<Policy>, s: Survey, probe: Probe,
                       expired: nat -> bool): Ended
  {
    Run(ident, if pol.Some? then pol.value else FastPolicy(ident, false), s,
        Attempt(opts.maxProbes, probe, expired))
  }

  /** Recording a batch: the round first, then every observation. None is refused, because none
      of the experiments was recorded before and no two share an ID. */
  method RecordBatch(ident: Ident, probe: Probe, state: SurveyState, proposed: seq<Experiment>,
                     observations: seq<Observation>) returns (ok: bool)
    requires DistinctIds(proposed) && Normal(ident, proposed) && Unrecorded(state.observations, {}, proposed)
    requires observations == Batch(probe, |state.observations|, proposed)
    modifies state
    ensures ok && state.View() == Step(probe, old(state.View()), proposed)
    ensures state.target == old(state.target)
  {
    ghost var before := state.observations;
    state.rounds := state.rounds + [Round(state.round, proposed)];
    for j := 0 to |observations|
      invariant state.observations == before + observations[..j]
      invariant state.target == old(state.target) && state.round == old(state.round)
      invariant state.rounds == old(state.rounds) + [Round(state.round, proposed)]
    {
      NextIsNew(ident, probe, old(state.View()), proposed, j);
      ok := state.AddObservation(observations[j]);
      if !ok { return; }
      assert observations[..j + 1] == observations[..j] + [observations[j]];
    }
    assert observations[..|observations|] == observations;
    state.round := state.round + 1;
    ok := true;
  }

  lemma NextIsNew(ident: Ident, probe: Probe, s: Survey, batch: seq<Experiment>, j: nat)
    requires DistinctIds(batch) && Normal(ident, batch) && Unrecorded(s.observations, {}, batch)
    requires j < |batch|
    ensures var more := Batch(probe, |s.observations|, batch);
            !HasExperiment(s.observations + more[..j], more[j].experiment.id)
  {
    var at := |s.observations| + j;
    BatchIsNew(ident, probe, s, batch, at);
    var all := Step(probe, s, batch).observations;
    var before := s.observations + Batch(probe, |s.observations|, batch)[..j];
    assert before == all[..at];
    forall i | 0 <= i < |before| ensures before[i].experiment.id != batch[j].id {
      assert before[i] == all[i];
    }
  }

  /** The state ends as the run prescribes, whatever the policy proposes and the probes answer;
      recording an observation never fails. When a proposal fails there is no report, but what
      was recorded before stays recorded. */
  method RunSurvey(ident: Ident, opts: Options, pol: Option<Policy>, state: SurveyState?,
                   probe: Probe, expired: nat -> bool, contextOver: bool) returns (out: Outcome)
    modifies state
    ensures state == null ==> out == Refused(NilState)
    ensures state != null && old(state.target).None? ==>
              out == Refused(NoTarget) && state.View() == old(state.View())
    ensures state != null && old(state.target).Some? ==>
              var run := RunOf(ident, opts, pol, old(state.View()), probe, expired);
              && state.View() == run.final
              && match run.why
                 case ProposeFailed(error) => out == Refused(PolicyFailed(error))
                 case _ => out == Reported(Report(old(state.target).value, run.final.observations,
                                                  InferFrom(run.final.observations), state), contextOver)
    ensures out != Refused(AddFailed)
  {
    hide Fresh, InferFrom, FastPolicy, Step, Batch;
    if state == null { return Refused(NilState); }
    if state.target.None? { return Refused(NoTarget); }
    var policy := if pol.Some? then pol.value else FastPolicy(ident, false);
    ghost var s0, b0 := state.View(), InitialBudget(opts.maxProbes, state.View());
    var maxProbes, limit := FillMaxProbes(opts.maxProbes), FillMaxConcurrent(opts.maxConcurrent);
    var budget := maxProbes - |state.observations|;
    if budget < 0 { budget := 0; }
    ghost var run := Rounds(ident, policy, probe, expired, s0, b0, 0);
    var round := 0;
    while round < MAX_ROUNDS
      invariant 0 <= round <= MAX_ROUNDS && budget >= 0 && state.target == s0.target
      invariant run == Rounds(ident, policy, probe, expired, state.View(), budget, round)
    {
      if expired(round) || budget <= 0 || policy.done(state.View()) { break; }
      var reply := policy.propose(state.View(), budget);
      if reply.Failure? { return Refused(PolicyFailed(reply.error)); }
      var proposed := DedupeAndCap(ident, state.View(), reply.value, budget);
      if |proposed| == 0 { break; }
      FreshIsSound(ident, state.observations, {}, reply.value, budget);
      var observations := Execute(probe, |state.observations|, proposed, limit);
      var added := RecordBatch(ident, probe, state, proposed, observations);
      if !added { return Refused(AddFailed); }
      budget := budget - |proposed|;
      round := round + 1;
    }
    var findings := InferFindings(state.View());
    out := Reported(Report(state.target.value, state.observations, findings, state), contextOver);
  }
}
