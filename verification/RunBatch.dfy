/** One batch of experiments under a bounded errgroup: starting an experiment waits for a free
    slot, running ones finish in any order, and each writes its own entry of the results. */
module RunBatch {
  import opened Model
  import opened Runs

  /** `next` experiments have been started; `results` holds what has finished. */
  datatype BatchState = BatchState(next: nat, running: set<nat>, results: seq<Option<Observation>>)

  datatype Action = Start | Finish(i: nat, answer: Observation)

  function Initial(exps: seq<Experiment>): BatchState {
    BatchState(0, {}, seq(|exps|, _ => None))
  }

  predicate Enabled(exps: seq<Experiment>, limit: nat, b: BatchState, a: Action) {
    match a
    case Start => b.next < |exps| && |b.running| < limit
    case Finish(i, _) => i in b.running && i < |b.results| && i < |exps|
  }

  function Apply(exps: seq<Experiment>, limit: nat, b: BatchState, a: Action): BatchState
    requires Enabled(exps, limit, b, a)
  {
    match a
    case Start => b.(next := b.next + 1, running := b.running + {b.next})
    case Finish(i, answer) =>
      b.(running := b.running - {i}, results := b.results[i := Some(Settle(answer, exps[i]))])
  }

  predicate Finished(exps: seq<Experiment>, b: BatchState) {
    b.next == |exps| && b.running == {}
  }

  function Unanswered(e: Experiment): Observation {
    Observation(e, e.spec.layer, NoStatus, 0, [], [], "")
  }

  /** `b` is reached by the actions of `trace`, in that order. */
  ghost predicate Reached(exps: seq<Experiment>, limit: nat, trace: seq<Action>, b: BatchState) {
    if |trace| == 0 then b == Initial(exps)
    else
      var n := |trace| - 1;
      exists before :: Reached(exps, limit, trace[..n], before)
        && Enabled(exps, limit, before, trace[n]) && b == Apply(exps, limit, before, trace[n])
  }

  /** What the i-th experiment was answered in a schedule. */
  ghost function Answer(trace: seq<Action>, i: nat): Option<Observation> {
    if |trace| == 0 then None
    else if trace[|trace| - 1].Finish? && trace[|trace| - 1].i == i then Some(trace[|trace| - 1].answer)
    else Answer(trace[..|trace| - 1], i)
  }

  ghost predicate Entry(exps: seq<Experiment>, trace: seq<Action>, b: BatchState, i: nat)
    requires i < |exps| == |b.results|
  {
    if i < b.next && i !in b.running
    then Answer(trace, i).Some? && b.results[i] == Some(Settle(Answer(trace, i).value, exps[i]))
    else b.results[i].None?
  }

  /** The steps a schedule has left. */
  function Left(exps: seq<Experiment>, b: BatchState): int {
    2 * (|exps| - b.next) + |b.running|
  }

  /** At every moment of every schedule no more than the limit run at once, and exactly the
      finished experiments have a result: their own, carrying their own experiment. */
  lemma {:induction false} BatchInvariant(exps: seq<Experiment>, limit: nat, trace: seq<Action>, b: BatchState)
    requires Reached(exps, limit, trace, b)
    ensures b.next <= |exps| == |b.results|
    ensures |b.running| <= limit && forall i :: i in b.running ==> i < b.next
    ensures forall i :: 0 <= i < |exps| ==> Entry(exps, trace, b, i)
    ensures |trace| + Left(exps, b) == 2 * |exps|
    decreases |trace|
  {
    hide Entry, Answer;
    if |trace| == 0 {
      NoEntries(exps, trace);
    } else {
      var n := |trace| - 1;
      var before :| Reached(exps, limit, trace[..n], before)
        && Enabled(exps, limit, before, trace[n]) && b == Apply(exps, limit, before, trace[n]);
      BatchInvariant(exps, limit, trace[..n], before);
      EntriesStep(exps, limit, trace[..n], trace, before, b);
    }
  }

  lemma NoEntries(exps: seq<Experiment>, trace: seq<Action>)
    ensures forall i :: 0 <= i < |exps| ==> Entry(exps, trace, Initial(exps), i)
  {
  }

  lemma EntriesStep(exps: seq<Experiment>, limit: nat, prior: seq<Action>, trace: seq<Action>,
                    before: BatchState, b: BatchState)
    requires |trace| > 0 && prior == trace[..|trace| - 1] && before.next <= |exps| == |before.results|
    requires forall i :: i in before.running ==> i < before.next
    requires forall i :: 0 <= i < |exps| ==> Entry(exps, prior, before, i)
    requires Enabled(exps, limit, before, trace[|trace| - 1]) && b == Apply(exps, limit, before, trace[|trace| - 1])
    ensures |b.results| == |exps| && forall i :: 0 <= i < |exps| ==> Entry(exps, trace, b, i)
  {
    hide Settle;
    forall i | 0 <= i < |exps| ensures Entry(exps, trace, b, i) {
      assert Entry(exps, prior, before, i);
    }
  }

  /** No schedule gets stuck. */
  lemma BatchNeverStuck(exps: seq<Experiment>, limit: nat, trace: seq<Action>, b: BatchState)
    requires limit >= 1 && Reached(exps, limit, trace, b) && !Finished(exps, b)
    ensures exists a :: Enabled(exps, limit, b, a)
  {
    BatchInvariant(exps, limit, trace, b);
    if b.running == {} {
      assert Enabled(exps, limit, b, Start);
    } else {
      var i :| i in b.running;
      assert i < |exps|;
      var e := exps[i];
      assert Enabled(exps, limit, b, Finish(i, Unanswered(e)));
    }
  }

  /** Every complete schedule takes two steps an experiment, and its results are those of
      running the experiments one after the other with the same answers. */
  lemma BatchRefinesMap(exps: seq<Experiment>, limit: nat, trace: seq<Action>, b: BatchState, probe: Probe, at: nat)
    requires Reached(exps, limit, trace, b) && Finished(exps, b)
    requires forall i :: 0 <= i < |exps| && Answer(trace, i).Some? ==> probe(at + i, exps[i]) == Answer(trace, i).value
    ensures |trace| == 2 * |exps|
    ensures b.results == seq(|exps|, i requires 0 <= i < |exps| => Some(Batch(probe, at, exps)[i]))
  {
    BatchInvariant(exps, limit, trace, b);
    forall i | 0 <= i < |exps| ensures b.results[i] == Some(Batch(probe, at, exps)[i]) {
      assert Entry(exps, trace, b, i);
    }
  }

  /** The batch itself: each turn starts an experiment or lets a running one finish,
      whichever the scheduler picks. The alternatives cover every case, so it cannot get stuck;
      the results array is written in place by the experiments as they finish. */
  method Execute(probe: Probe, at: nat, exps: seq<Experiment>, limit: nat) returns (out: seq<Observation>)
    requires limit >= 1
    ensures out == Batch(probe, at, exps)
  {
    hide RunOne;
    var zero := Unanswered(Experiment("", Spec(Target(None, "", 0), LayerOther(""), NoFamily, NoTransport,
                                               NoResolver, "", "", 0)));
    var results := new Observation[|exps|](_ => zero);
    var next: nat := 0;
    var running: set<nat> := {};
    while next < |exps| || running != {}
      invariant next <= |exps| && |running| <= limit
      invariant forall i :: i in running ==> i < next
      invariant forall i :: 0 <= i < next && i !in running ==> results[i] == RunOne(probe, at + i, exps[i])
      decreases |exps| - next, |running|
    {
      if
      case next < |exps| && |running| < limit =>
        running := running + {next};
        next := next + 1;
      case running != {} =>
        var i :| i in running;
        results[i] := RunOne(probe, at + i, exps[i]);
        running := running - {i};
    }
    out := results[..];
  }
}
