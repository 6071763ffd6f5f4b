/** Deduplication and capping of proposals. The runner and the policies run the same loop. */
module Dedupe {
  import opened Model

  /** The proposals that survive: normalized, unrecorded, first of their ID, at most `budget`. */
  function Fresh(ident: Ident, obs: seq<Observation>, seen: set<string>,
                 exps: seq<Experiment>, budget: int): seq<Experiment>
    decreases exps
  {
    if budget <= 0 || |exps| == 0 then []
    else
      var e := Normalize(ident, exps[0]);
      if e.id == "" || HasExperiment(obs, e.id) || e.id in seen
      then Fresh(ident, obs, seen, exps[1..], budget)
      else [e] + Fresh(ident, obs, seen + {e.id}, exps[1..], budget - 1)
  }

  ghost function IdsOf(exps: seq<Experiment>): set<string> {
    set e | e in exps :: e.id
  }

  ghost predicate DistinctIds(exps: seq<Experiment>) {
    forall i, j :: 0 <= i < j < |exps| ==> exps[i].id != exps[j].id
  }

  ghost predicate Normal(ident: Ident, exps: seq<Experiment>) {
    forall e :: e in exps ==> Normalize(ident, e) == e
  }

  ghost predicate Unrecorded(obs: seq<Observation>, seen: set<string>, exps: seq<Experiment>) {
    forall e :: e in exps ==> e.id != "" && !HasExperiment(obs, e.id) && e.id !in seen
  }

  /** What survives is capped, normalized, new, and has pairwise distinct IDs. */
  lemma {:induction false} FreshIsSound(ident: Ident, obs: seq<Observation>, seen: set<string>,
                                        exps: seq<Experiment>, budget: int)
    ensures var out := Fresh(ident, obs, seen, exps, budget);
            && |out| <= (if budget < 0 then 0 else budget)
            && DistinctIds(out) && Normal(ident, out) && Unrecorded(obs, seen, out)
    decreases exps
  {
    if budget > 0 && |exps| > 0 {
      var e := Normalize(ident, exps[0]);
      NormalizeIdempotent(ident, exps[0]);
      if HasExperiment(obs, e.id) || e.id in seen {
        FreshIsSound(ident, obs, seen, exps[1..], budget);
      } else {
        FreshIsSound(ident, obs, seen + {e.id}, exps[1..], budget - 1);
      }
    }
  }

  /** What survives was proposed. */
  lemma {:induction false} FreshWasProposed(ident: Ident, obs: seq<Observation>, seen: set<string>,
                                            exps: seq<Experiment>, budget: int, e: Experiment)
    requires e in Fresh(ident, obs, seen, exps, budget)
    ensures exists p :: p in exps && e == Normalize(ident, p)
    decreases exps
  {
    var first := Normalize(ident, exps[0]);
    if HasExperiment(obs, first.id) || first.id in seen || first.id == "" {
      FreshWasProposed(ident, obs, seen, exps[1..], budget, e);
    } else if e != first {
      FreshWasProposed(ident, obs, seen + {first.id}, exps[1..], budget - 1, e);
    } else {
      assert exps[0] in exps;
    }
  }

  /** Nothing is dropped without a reason: unless the cap was reached, the normalized ID of
      every proposal is recorded, was seen, or survived. */
  lemma {:induction false} FreshLosesNothing(ident: Ident, obs: seq<Observation>, seen: set<string>,
                                             exps: seq<Experiment>, budget: int, p: Experiment)
    requires p in exps && |Fresh(ident, obs, seen, exps, budget)| < budget
    ensures var id := Normalize(ident, p).id;
            HasExperiment(obs, id) || id in seen || id in IdsOf(Fresh(ident, obs, seen, exps, budget))
    decreases exps
  {
    var first := Normalize(ident, exps[0]);
    NormalizeIdempotent(ident, exps[0]);
    if HasExperiment(obs, first.id) || first.id in seen {
      if p != exps[0] {
        assert p in exps[1..];
        FreshLosesNothing(ident, obs, seen, exps[1..], budget, p);
      }
    } else {
      var rest := Fresh(ident, obs, seen + {first.id}, exps[1..], budget - 1);
      var out := Fresh(ident, obs, seen, exps, budget);
      assert out == [first] + rest;
      assert first in out && forall x :: x in rest ==> x in out;
      if p != exps[0] {
        assert p in exps[1..];
        FreshLosesNothing(ident, obs, seen + {first.id}, exps[1..], budget - 1, p);
      }
    }
  }

  /** Proposals that are already normal, unrecorded and distinct only get capped. */
  lemma {:induction false} FreshKeeps(ident: Ident, obs: seq<Observation>, seen: set<string>,
                                      exps: seq<Experiment>, budget: nat)
    requires Normal(ident, exps) && DistinctIds(exps)
    requires Unrecorded(obs, seen, exps)
    ensures Fresh(ident, obs, seen, exps, budget) == exps[..if budget < |exps| then budget else |exps|]
    decreases exps
  {
    hide Normalize, HasExperiment;
    if budget > 0 && |exps| > 0 {
      var e, rest := exps[0], exps[1..];
      assert e in exps;
      TailKeeps(ident, obs, seen, exps);
      FreshKeeps(ident, obs, seen + {e.id}, rest, budget - 1);
      var n := if budget < |exps| then budget else |exps|;
      assert exps[..n] == [e] + rest[..n - 1];
    }
  }

  lemma TailKeeps(ident: Ident, obs: seq<Observation>, seen: set<string>, exps: seq<Experiment>)
    requires |exps| > 0 && Normal(ident, exps) && DistinctIds(exps) && Unrecorded(obs, seen, exps)
    ensures Normal(ident, exps[1..]) && DistinctIds(exps[1..]) && Unrecorded(obs, seen + {exps[0].id}, exps[1..])
  {
    hide Normalize, HasExperiment;
    forall x | x in exps[1..] ensures x.id != exps[0].id && x in exps {
      var k :| 0 <= k < |exps[1..]| && exps[1..][k] == x;
      assert exps[k + 1] == x;
    }
  }

  /** The policy's deduplication followed by the runner's is the policy's alone. */
  lemma FreshTwice(ident: Ident, obs: seq<Observation>, exps: seq<Experiment>, budget: int)
    ensures var once := Fresh(ident, obs, {}, exps, budget);
            Fresh(ident, obs, {}, once, budget) == once
  {
    FreshIsSound(ident, obs, {}, exps, budget);
    var once := Fresh(ident, obs, {}, exps, budget);
    if budget > 0 {
      FreshKeeps(ident, obs, {}, once, budget);
    }
  }

  /** A larger cap never changes whether anything survives. */
  lemma FreshNonempty(ident: Ident, obs: seq<Observation>, exps: seq<Experiment>, b: int, c: int)
    requires 0 < b && 0 < c
    ensures Fresh(ident, obs, {}, exps, b) == [] <==> Fresh(ident, obs, {}, exps, c) == []
    ensures Fresh(ident, obs, {}, exps, b) == [] <==>
            forall p :: p in exps ==> HasExperiment(obs, Normalize(ident, p).id)
  {
    if Fresh(ident, obs, {}, exps, b) == [] {
      forall p | p in exps ensures HasExperiment(obs, Normalize(ident, p).id) {
        FreshLosesNothing(ident, obs, {}, exps, b, p);
      }
    }
    if Fresh(ident, obs, {}, exps, c) == [] {
      forall p | p in exps ensures HasExperiment(obs, Normalize(ident, p).id) {
        FreshLosesNothing(ident, obs, {}, exps, c, p);
      }
    }
    if forall p :: p in exps ==> HasExperiment(obs, Normalize(ident, p).id) {
      AllRecordedLeavesNothing(ident, obs, exps, b);
      AllRecordedLeavesNothing(ident, obs, exps, c);
    }
  }

  /** A smaller cap keeps a prefix of what a larger one keeps. */
  lemma {:induction false} FreshPrefix(ident: Ident, obs: seq<Observation>, seen: set<string>,
                                       exps: seq<Experiment>, b: int, c: int)
    requires b <= c
    ensures Fresh(ident, obs, seen, exps, b) <= Fresh(ident, obs, seen, exps, c)
    ensures |Fresh(ident, obs, seen, exps, b)| < b ==>
              Fresh(ident, obs, seen, exps, b) == Fresh(ident, obs, seen, exps, c)
    decreases exps
  {
    hide Normalize, HasExperiment;
    if b > 0 && |exps| > 0 {
      var e := Normalize(ident, exps[0]);
      if e.id == "" || HasExperiment(obs, e.id) || e.id in seen {
        FreshPrefix(ident, obs, seen, exps[1..], b, c);
      } else {
        FreshPrefix(ident, obs, seen + {e.id}, exps[1..], b - 1, c - 1);
      }
    }
  }

  lemma AllRecordedLeavesNothing(ident: Ident, obs: seq<Observation>, exps: seq<Experiment>, budget: int)
    requires forall p :: p in exps ==> HasExperiment(obs, Normalize(ident, p).id)
    ensures Fresh(ident, obs, {}, exps, budget) == []
  {
    var out := Fresh(ident, obs, {}, exps, budget);
    if out != [] {
      FreshIsSound(ident, obs, {}, exps, budget);
      FreshWasProposed(ident, obs, {}, exps, budget, out[0]);
    }
  }

  /** The loop itself. */
  method DedupeAndCap(ident: Ident, state: Survey, exps: seq<Experiment>, budget: int)
    returns (out: seq<Experiment>)
    ensures out == Fresh(ident, state.observations, {}, exps, budget)
  {
    if budget <= 0 { return []; }
    var seen := {};
    out := [];
    var i := 0;
    while i < |exps|
      invariant 0 <= i <= |exps|
      invariant |out| < budget
      invariant out + Fresh(ident, state.observations, seen, exps[i..], budget - |out|)
                == Fresh(ident, state.observations, {}, exps, budget)
    {
      var e := Normalize(ident, exps[i]);
      assert exps[i..][0] == exps[i] && exps[i..][1..] == exps[i + 1..];
      if !(e.id == "" || HasExperiment(state.observations, e.id) || e.id in seen) {
        ghost var rest := Fresh(ident, state.observations, seen + {e.id}, exps[i + 1..], budget - |out| - 1);
        assert out + ([e] + rest) == (out + [e]) + rest;
        seen := seen + {e.id};
        out := out + [e];
        if |out| >= budget { assert rest == []; return; }
      }
      i := i + 1;
    }
  }
}
