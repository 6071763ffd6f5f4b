/** A fresh Fast survey records at most six experiments, whatever the outcomes and whatever the
    IDs: TLS and HTTP are only ever probed on one family. */
module FastSix {
  import opened Model
  import opened Selectors
  import opened Dedupe
  import opened Runs
  import opened Fast
  import opened FastRuns
  import opened FastCausal

  // ---------------------------------------------------------------------------------------
  // TCP families are dialed in turn

  /** Whether TCP on a family is recorded is decided: it is, or its ID is taken. */
  ghost predicate Decided(ident: Ident, t: Target, before: seq<Observation>, f: Family) {
    HasKey(before, LayerTCP, f) || ident(TcpSpec(t, f)) in Ids(before)
  }

  /** A connect on the second of two families is only recorded once the first is decided. */
  ghost predicate TurnAt(ident: Ident, prefer6: bool, t: Target, obs: seq<Observation>, i: nat)
    requires i < |obs|
  {
    obs[i].layer == LayerTCP ==>
      exists d :: 0 <= d < i && obs[d].layer == LayerDNS && TurnAfter(ident, prefer6, t, obs, i, d)
  }

  ghost predicate TurnAfter(ident: Ident, prefer6: bool, t: Target, obs: seq<Observation>, i: nat, d: nat)
    requires d < i < |obs|
  {
    var fams := Families(obs[d], prefer6);
    |fams| == 2 && obs[i].experiment.spec.family == fams[1] ==> Decided(ident, t, obs[..i], fams[0])
  }

  ghost predicate InTurn(ident: Ident, prefer6: bool, t: Target, obs: seq<Observation>) {
    forall i :: 0 <= i < |obs| ==> TurnAt(ident, prefer6, t, obs, i)
  }

  ghost predicate Different(exps: seq<Experiment>) {
    forall i, j :: 0 <= i < j < |exps| ==> exps[i] != exps[j]
  }

  /** Of two proposals, the later one only survives when the earlier one's ID was recorded, was
      seen, or survived before it. */
  lemma {:induction false} FreshInOrder(ident: Ident, obs: seq<Observation>, seen: set<string>, exps: seq<Experiment>, budget: int,
                                        p: nat, q: nat, m: nat)
    requires p < q < |exps| && Normal(ident, exps) && Different(exps)
    requires var out := Fresh(ident, obs, seen, exps, budget); m < |out| && out[m] == exps[q]
    ensures var out := Fresh(ident, obs, seen, exps, budget);
            HasExperiment(obs, exps[p].id) || exps[p].id in seen || exists k :: 0 <= k < m && out[k].id == exps[p].id
    decreases exps
  {
    hide HasExperiment, Normalize;
    var out := Fresh(ident, obs, seen, exps, budget);
    var e := exps[0];
    assert e in exps && Normalize(ident, e) == e;
    assert exps[1..][q - 1] == exps[q] && forall x :: x in exps[1..] ==> x in exps;
    NormalizeIdempotent(ident, e);
    if HasExperiment(obs, e.id) || e.id in seen {
      if p > 0 { FreshInOrder(ident, obs, seen, exps[1..], budget, p - 1, q - 1, m); }
    } else {
      var rest := Fresh(ident, obs, seen + {e.id}, exps[1..], budget - 1);
      assert out == [e] + rest && e != exps[q];
      assert m > 0 && rest[m - 1] == exps[q] && out[0].id == e.id;
      if p > 0 {
        FreshInOrder(ident, obs, seen + {e.id}, exps[1..], budget - 1, p - 1, q - 1, m - 1);
        if k :| 0 <= k < m - 1 && rest[k].id == exps[p].id { assert out[k + 1] == rest[k]; }
      }
    }
  }

  lemma PlanIsDifferent(ident: Ident, prefer6: bool, t: Target, obs: seq<Observation>)
    ensures Normal(ident, Plan(ident, prefer6, t, obs)) && Different(Plan(ident, prefer6, t, obs))
  {
    hide Plan, Normalize;
    PlanHasDistinctKeys(ident, prefer6, t, obs);
    forall e | e in Plan(ident, prefer6, t, obs) ensures Normalize(ident, e) == e {
      PlannedIsNormal(ident, prefer6, t, obs, e);
    }
  }

  /** A planned connect: on a resolved family, and on the second one with the first planned before
      it unless that is recorded. */
  lemma PlannedConnect(ident: Ident, prefer6: bool, t: Target, obs: seq<Observation>, q: nat)
    requires q < |Plan(ident, prefer6, t, obs)| && Plan(ident, prefer6, t, obs)[q].spec.layer == LayerTCP
    ensures var plan := Plan(ident, prefer6, t, obs);
            var dns := Latest(obs, LayerDNS, NoFamily);
            && dns.Some?
            && var fams := Families(dns.value, prefer6);
               |fams| == 2 && plan[q].spec.family == fams[1] ==>
                 || HasKey(obs, LayerTCP, fams[0])
                 || exists p :: 0 <= p < q && plan[p] == Make(ident, TcpSpec(t, fams[0]))
  {
    hide Latest, Make, Tree, TcpSpec, Families, DnsSpec;
    var plan, dns := Plan(ident, prefer6, t, obs), Latest(obs, LayerDNS, NoFamily);
    PlanQuicFamily(ident, prefer6, t, obs, plan[q]);
    var fams := Families(dns.value, prefer6);
    if |fams| == 2 && plan[q].spec.family == fams[1] {
      LatestMeaning(obs, LayerTCP, fams[0]);
      MadeSpec(ident, TcpSpec(t, fams[0]));
      assert fams == [fams[0], fams[1]] && fams[0] != fams[1];
      if Latest(obs, LayerTCP, fams[0]).None? {
        TreeStarts(ident, t, obs, fams[0], fams[1]);
        assert plan == Tree(ident, t, obs, [fams[0], fams[1]]);
        var first := Make(ident, TcpSpec(t, fams[0]));
        assert plan[0] == first && first.spec.family == fams[0];
        assert q > 0;
      }
    }
  }

  lemma TreeStarts(ident: Ident, t: Target, obs: seq<Observation>, f: Family, g: Family)
    requires Latest(obs, LayerTCP, f).None?
    ensures |Tree(ident, t, obs, [f, g])| > 0 && Tree(ident, t, obs, [f, g])[0] == Make(ident, TcpSpec(t, f))
  {
    hide Latest, Make, MissingTcp, FirstTcpPass, QuicBranch, AppBranch, TcpSpec;
    TreeOfTwo(ident, t, obs, f, g);
  }

  // ---------------------------------------------------------------------------------------
  // Every run keeps the turn

  lemma BatchInTurn(ident: Ident, prefer6: bool, t: Target, obs: seq<Observation>, probe: Probe, budget: nat, i: nat)
    requires var batch := Fresh(ident, obs, {}, Plan(ident, prefer6, t, obs), budget);
             |obs| <= i < |obs| + |batch|
    ensures var batch := Fresh(ident, obs, {}, Plan(ident, prefer6, t, obs), budget);
            TurnAt(ident, prefer6, t, obs + Batch(probe, |obs|, batch), i)
  {
    hide Plan, Fresh, Latest, Families, Make, TcpSpec, Decided, Batch, HasExperiment;
    var n, plan := |obs|, Plan(ident, prefer6, t, obs);
    var batch := Fresh(ident, obs, {}, plan, budget);
    var done, m := obs + Batch(probe, n, batch), i - n;
    RecordedAt(obs, probe, batch, i);
    if done[i].layer == LayerTCP {
      var q := PlannedWhere(ident, prefer6, t, obs, budget, m);
      PlannedConnect(ident, prefer6, t, obs, q);
      LatestMeaning(obs, LayerDNS, NoFamily);
      var d :| 0 <= d < n && obs[d].layer == LayerDNS && Latest(obs, LayerDNS, NoFamily) == Some(obs[d]);
      assert done[d] == obs[d];
      var fams := Families(obs[d], prefer6);
      if |fams| == 2 && done[i].experiment.spec.family == fams[1] {
        BatchDecides(ident, prefer6, t, obs, probe, budget, i, q, fams[0]);
      }
      assert TurnAfter(ident, prefer6, t, done, i, d);
    }
  }

  lemma PlannedWhere(ident: Ident, prefer6: bool, t: Target, obs: seq<Observation>, budget: nat, m: nat) returns (q: nat)
    requires m < |Fresh(ident, obs, {}, Plan(ident, prefer6, t, obs), budget)|
    ensures q < |Plan(ident, prefer6, t, obs)|
    ensures Fresh(ident, obs, {}, Plan(ident, prefer6, t, obs), budget)[m] == Plan(ident, prefer6, t, obs)[q]
  {
    hide Plan, Fresh, Normalize;
    var plan := Plan(ident, prefer6, t, obs);
    var e := Fresh(ident, obs, {}, plan, budget)[m];
    FreshWasProposed(ident, obs, {}, plan, budget, e);
    var p :| p in plan && e == Normalize(ident, p);
    PlannedIsNormal(ident, prefer6, t, obs, p);
    q :| 0 <= q < |plan| && plan[q] == p;
  }

  lemma BatchDecides(ident: Ident, prefer6: bool, t: Target, obs: seq<Observation>, probe: Probe, budget: nat,
                     i: nat, q: nat, f: Family)
    requires f == IPv4 || f == IPv6
    requires var plan := Plan(ident, prefer6, t, obs);
             var batch := Fresh(ident, obs, {}, plan, budget);
             && |obs| <= i < |obs| + |batch| && q < |plan| && batch[i - |obs|] == plan[q]
             && (HasKey(obs, LayerTCP, f) || exists p :: 0 <= p < q && plan[p] == Make(ident, TcpSpec(t, f)))
    ensures var batch := Fresh(ident, obs, {}, Plan(ident, prefer6, t, obs), budget);
            Decided(ident, t, (obs + Batch(probe, |obs|, batch))[..i], f)
  {
    hide Plan, Fresh, Make, TcpSpec, Matches;
    var n, plan := |obs|, Plan(ident, prefer6, t, obs);
    var batch := Fresh(ident, obs, {}, plan, budget);
    var before := (obs + Batch(probe, n, batch))[..i];
    assert forall j :: 0 <= j < n ==> before[j] == obs[j];
    if p :| 0 <= p < q && plan[p] == Make(ident, TcpSpec(t, f)) {
      var id := ident(TcpSpec(t, f));
      MadeSpec(ident, TcpSpec(t, f));
      PlanIsDifferent(ident, prefer6, t, obs);
      FreshInOrder(ident, obs, {}, plan, budget, p, q, i - n);
      if HasExperiment(obs, id) {
        var j :| 0 <= j < n && obs[j].experiment.id == id;
        assert before[j] in before;
      } else {
        var k :| 0 <= k < i - n && batch[k].id == id;
        assert before[n + k].experiment == batch[k] && before[n + k] in before;
      }
    }
  }

  lemma RunInTurn(ident: Ident, prefer6: bool, t: Target, s: Survey, a: Attempt)
    requires s.target == Some(t) && InTurn(ident, prefer6, t, s.observations)
    ensures var f := Run(ident, FastPolicy(ident, prefer6), s, a).final;
            f.target == Some(t) && InTurn(ident, prefer6, t, f.observations)
  {
    hide InTurn, Fresh, Plan;
    var pol := FastPolicy(ident, prefer6);
    var inv := (st: Survey) => st.target == Some(t) && InTurn(ident, prefer6, t, st.observations);
    forall st: Survey, b: nat | inv(st) && 0 < b && !pol.done(st) && pol.propose(st, b).Success?
      ensures inv(Step(a.probe, st, Fresh(ident, st.observations, {}, pol.propose(st, b).value, b)))
    {
      FreshTwice(ident, st.observations, Plan(ident, prefer6, t, st.observations), b);
      StepInTurn(ident, prefer6, t, st.observations, a.probe, b);
    }
    RoundsKeep(ident, pol, a.probe, a.expired, s, InitialBudget(a.maxProbes, s), 0, inv);
  }

  lemma StepInTurn(ident: Ident, prefer6: bool, t: Target, obs: seq<Observation>, probe: Probe, budget: nat)
    requires InTurn(ident, prefer6, t, obs)
    ensures InTurn(ident, prefer6, t, obs + Batch(probe, |obs|, Fresh(ident, obs, {}, Plan(ident, prefer6, t, obs), budget)))
  {
    hide TurnAt, Fresh, Plan;
    var done := obs + Batch(probe, |obs|, Fresh(ident, obs, {}, Plan(ident, prefer6, t, obs), budget));
    forall i | 0 <= i < |done| ensures TurnAt(ident, prefer6, t, done, i) {
      if i < |obs| {
        assert TurnAt(ident, prefer6, t, obs, i);
        TurnLonger(ident, prefer6, t, obs, done, i);
      } else {
        BatchInTurn(ident, prefer6, t, obs, probe, budget, i);
      }
    }
  }

  lemma TurnLonger(ident: Ident, prefer6: bool, t: Target, obs: seq<Observation>, done: seq<Observation>, i: nat)
    requires i < |obs| && obs <= done && TurnAt(ident, prefer6, t, obs, i)
    ensures TurnAt(ident, prefer6, t, done, i)
  {
    hide Decided, Families;
    assert done[..i] == obs[..i] && done[i] == obs[i];
    if obs[i].layer == LayerTCP {
      var d :| 0 <= d < i && obs[d].layer == LayerDNS && TurnAfter(ident, prefer6, t, obs, i, d);
      assert done[d] == obs[d] && TurnAfter(ident, prefer6, t, done, i, d);
    }
  }

  lemma {:induction false} ResumesInTurn(ident: Ident, prefer6: bool, t: Target, s: Survey, runs: seq<Attempt>)
    requires s.target == Some(t) && InTurn(ident, prefer6, t, s.observations)
    ensures InTurn(ident, prefer6, t, Resumes(ident, FastPolicy(ident, prefer6), s, runs).observations)
    decreases runs
  {
    hide InTurn, FastPolicy, Run;
    if |runs| > 0 {
      RunInTurn(ident, prefer6, t, s, runs[0]);
      ResumesInTurn(ident, prefer6, t, Run(ident, FastPolicy(ident, prefer6), s, runs[0]).final, runs[1..]);
    }
  }

  // ---------------------------------------------------------------------------------------
  // One family for TLS and HTTP

  /** What every record of a fresh survey satisfies. */
  ghost predicate FreshRecord(ident: Ident, prefer6: bool, t: Target, obs: seq<Observation>) {
    && Planned(ident, prefer6, t, 0, obs) && InTurn(ident, prefer6, t, obs)
    && forall i, j :: 0 <= i < j < |obs| ==> obs[i].experiment.id != obs[j].experiment.id
  }

  /** TLS and HTTP are planned on the first family whose TCP passes. */
  lemma PlannedApp(ident: Ident, prefer6: bool, t: Target, obs: seq<Observation>, e: Experiment)
    requires e in Plan(ident, prefer6, t, obs) && (e.spec.layer == LayerTLS || e.spec.layer == LayerHTTP)
    ensures var dns := Latest(obs, LayerDNS, NoFamily);
            dns.Some? && FirstTcpPass(obs, Families(dns.value, prefer6)) == Some(e.spec.family)
  {
    hide Latest, Make, MissingTcp, FirstTcpPass, QuicBranch, AppBranch, Families, DnsSpec;
    PlanQuicFamily(ident, prefer6, t, obs, e);
    var fams := Families(Latest(obs, LayerDNS, NoFamily).value, prefer6);
    if e in MissingTcp(ident, t, obs, fams) { MissingTcpIsTcp(ident, t, obs, fams, e); }
    QuicIsQuic(ident, t, obs, fams[0], e);
    var pass := FirstTcpPass(obs, fams);
    PassFamily(obs, fams);
    AppFamily(ident, t, obs, pass.value, e);
  }

  lemma {:induction false} PassFamily(obs: seq<Observation>, fams: seq<Family>)
    ensures FirstTcpPass(obs, fams).Some? ==> FirstTcpPass(obs, fams).value in fams
  {
    if |fams| > 0 { PassFamily(obs, fams[1..]); }
  }

  lemma AppFamily(ident: Ident, t: Target, obs: seq<Observation>, f: Family, e: Experiment)
    requires f != NoFamily && e in AppBranch(ident, t, obs, f)
    ensures e.spec.family == f
  {
    hide Latest;
  }

  /** TCP was planned as the target's own connect. */
  lemma PlannedTcp(ident: Ident, prefer6: bool, t: Target, obs: seq<Observation>, i: nat)
    requires Planned(ident, prefer6, t, 0, obs) && i < |obs| && obs[i].layer == LayerTCP
    ensures var f := obs[i].experiment.spec.family;
            (f == IPv4 || f == IPv6) && obs[i].experiment.id == ident(TcpSpec(t, f))
  {
    hide Plan, Make, FastSpecs, HasKey, Planned, TcpSpec;
    var k := WhenPlanned(ident, prefer6, t, 0, obs, i);
    PlanElement(ident, prefer6, t, obs[..k], obs[i].experiment);
    var s :| s in FastSpecs(t) && obs[i].experiment == Make(ident, s);
    MadeIsNormal(ident, t, s);
    TcpOfTree(t, s);
  }

  lemma TcpOfTree(t: Target, s: Spec)
    requires s in FastSpecs(t) && s.layer == LayerTCP
    ensures (s.family == IPv4 || s.family == IPv6) && s == TcpSpec(t, s.family)
  {
    hide DnsSpec, TcpSpec, TlsSpec, HttpSpec, QuicSpec, Defaults;
  }

  /** What a TLS or HTTP observation was planned on. */
  ghost predicate AppOn(prefer6: bool, obs: seq<Observation>, i: nat, k: nat, d: nat)
    requires d < k <= i < |obs|
  {
    obs[d].layer == LayerDNS
    && FirstTcpPass(obs[..k], Families(obs[d], prefer6)) == Some(obs[i].experiment.spec.family)
  }

  lemma AppPlannedOn(ident: Ident, prefer6: bool, t: Target, obs: seq<Observation>, i: nat) returns (k: nat, d: nat)
    requires Planned(ident, prefer6, t, 0, obs) && i < |obs| && (obs[i].layer == LayerTLS || obs[i].layer == LayerHTTP)
    ensures d < k <= i && AppOn(prefer6, obs, i, k, d)
  {
    hide Plan, Planned, Latest, FirstTcpPass, Families, HasKey;
    k := WhenPlanned(ident, prefer6, t, 0, obs, i);
    PlannedApp(ident, prefer6, t, obs[..k], obs[i].experiment);
    LatestMeaning(obs[..k], LayerDNS, NoFamily);
    d :| 0 <= d < |obs[..k]| && obs[..k][d].layer == LayerDNS && Latest(obs[..k], LayerDNS, NoFamily) == Some(obs[..k][d]);
    assert obs[..k][d] == obs[d];
  }

  /** A passing connect on a family, by index. */
  ghost predicate Connected(obs: seq<Observation>, f: Family, a: nat) {
    a < |obs| && Matches(obs[a], LayerTCP, f) && obs[a].status == Pass
  }

  lemma PassAt(obs: seq<Observation>, f: Family) returns (a: nat)
    requires Passes(Latest(obs, LayerTCP, f))
    ensures Connected(obs, f, a)
  {
    hide Latest;
    LatestMeaning(obs, LayerTCP, f);
    a :| 0 <= a < |obs| && Matches(obs[a], LayerTCP, f) && Latest(obs, LayerTCP, f) == Some(obs[a]);
  }

  /** A connect recorded once, and passing, is the latest on every later record. */
  lemma SoleConnect(ident: Ident, prefer6: bool, t: Target, obs: seq<Observation>, f: Family, a: nat, k: nat)
    requires Planned(ident, prefer6, t, 0, obs) && f != NoFamily && Connected(obs, f, a) && a < k <= |obs|
    ensures Passes(Latest(obs[..k], LayerTCP, f))
  {
    hide Planned, Latest;
    LatestMeaning(obs[..k], LayerTCP, f);
    assert obs[..k][a] == obs[a];
    forall b | 0 <= b < k && Matches(obs[..k][b], LayerTCP, f) ensures b == a {
      assert obs[..k][b] == obs[b];
      if a < b {
        MatchesOnce(ident, prefer6, t, obs, LayerTCP, f, a, b);
      } else if b < a {
        MatchesOnce(ident, prefer6, t, obs, LayerTCP, f, b, a);
      }
    }
  }

  /** When the second family was taken, the first was decided without passing, for good. */
  lemma NoTurningBack(ident: Ident, prefer6: bool, t: Target, obs: seq<Observation>, d: nat, k: nat, a: nat)
    requires FreshRecord(ident, prefer6, t, obs) && d < |obs| && obs[d].layer == LayerDNS && k <= |obs|
    requires var fams := Families(obs[d], prefer6);
             |fams| == 2 && Connected(obs, fams[0], a)
             && Passes(Latest(obs[..k], LayerTCP, fams[1]))
    ensures Passes(Latest(obs[..k], LayerTCP, Families(obs[d], prefer6)[0]))
  {
    hide Planned, InTurn, Latest, Families, TcpSpec;
    var fams := Families(obs[d], prefer6);
    var b := PassAt(obs[..k], fams[1]);
    assert obs[..k][b] == obs[b];
    if a < k {
      SoleConnect(ident, prefer6, t, obs, fams[0], a, k);
    } else {
      TurnDecides(ident, prefer6, t, obs, d, b, a);
    }
  }

  lemma TurnDecides(ident: Ident, prefer6: bool, t: Target, obs: seq<Observation>, d: nat, b: nat, a: nat)
    requires FreshRecord(ident, prefer6, t, obs) && d < |obs| && obs[d].layer == LayerDNS
    requires var fams := Families(obs[d], prefer6);
             |fams| == 2 && b < |obs| && Matches(obs[b], LayerTCP, fams[1])
             && a < |obs| && Matches(obs[a], LayerTCP, fams[0])
    ensures a < b
  {
    hide Planned, Families, TcpSpec;
    var fams := Families(obs[d], prefer6);
    assert TurnAt(ident, prefer6, t, obs, b);
    var e :| 0 <= e < b && obs[e].layer == LayerDNS && TurnAfter(ident, prefer6, t, obs, b, e);
    OneDns(ident, prefer6, t, obs, d, e);
    PlannedTcp(ident, prefer6, t, obs, a);
    if HasKey(obs[..b], LayerTCP, fams[0]) {
      var c :| 0 <= c < b && Matches(obs[..b][c], LayerTCP, fams[0]);
      assert obs[..b][c] == obs[c];
      if c < a { MatchesOnce(ident, prefer6, t, obs, LayerTCP, fams[0], c, a); }
    }
    if ident(TcpSpec(t, fams[0])) in Ids(obs[..b]) {
      var o :| o in obs[..b] && o.experiment.id == ident(TcpSpec(t, fams[0]));
      var c :| 0 <= c < b && obs[..b][c] == o;
      assert obs[c].experiment.id == obs[a].experiment.id;
      assert c == a;
    }
  }

  lemma OneDns(ident: Ident, prefer6: bool, t: Target, obs: seq<Observation>, d: nat, e: nat)
    requires Planned(ident, prefer6, t, 0, obs) && d < |obs| && e < |obs|
    requires obs[d].layer == LayerDNS && obs[e].layer == LayerDNS
    ensures d == e
  {
    hide Planned;
    PlannedRecordAt(ident, prefer6, t, obs, d);
    PlannedRecordAt(ident, prefer6, t, obs, e);
  }

  lemma PassOfTwo(obs: seq<Observation>, fams: seq<Family>, f: Family)
    requires fams == [] || fams == [IPv4] || fams == [IPv6] || fams == [IPv4, IPv6] || fams == [IPv6, IPv4]
    requires FirstTcpPass(obs, fams) == Some(f)
    ensures f in fams && Passes(Latest(obs, LayerTCP, f))
    ensures |fams| == 2 && f == fams[1] ==> !Passes(Latest(obs, LayerTCP, fams[0]))
  {
    hide Latest;
    assert |fams| > 0;
    assert fams == [fams[0]] || fams == [fams[0], fams[1]];
    assert [fams[0]][1..] == [];
    if |fams| == 2 { assert fams[1..] == [fams[1]] && [fams[1]][1..] == []; }
  }

  /** All TLS and HTTP observations of a fresh survey are on one family. */
  lemma OneAppFamily(ident: Ident, prefer6: bool, t: Target, obs: seq<Observation>, i: nat, j: nat)
    requires FreshRecord(ident, prefer6, t, obs) && i < |obs| && j < |obs|
    requires (obs[i].layer == LayerTLS || obs[i].layer == LayerHTTP) && (obs[j].layer == LayerTLS || obs[j].layer == LayerHTTP)
    ensures obs[i].experiment.spec.family == obs[j].experiment.spec.family
  {
    hide Planned, InTurn, Latest, FirstTcpPass, Families;
    var k, d := AppPlannedOn(ident, prefer6, t, obs, i);
    var l, e := AppPlannedOn(ident, prefer6, t, obs, j);
    OneDns(ident, prefer6, t, obs, d, e);
    var fams := Families(obs[d], prefer6);
    var f, g := obs[i].experiment.spec.family, obs[j].experiment.spec.family;
    PassOfTwo(obs[..k], fams, f);
    PassOfTwo(obs[..l], fams, g);
    if f != g {
      if f == fams[0] {
        FirstThenSecond(ident, prefer6, t, obs, d, k, l);
      } else {
        FirstThenSecond(ident, prefer6, t, obs, d, l, k);
      }
    }
  }

  /** If the first family passes on one record, no record of the survey prefers the second. */
  lemma FirstThenSecond(ident: Ident, prefer6: bool, t: Target, obs: seq<Observation>, d: nat, k: nat, l: nat)
    requires FreshRecord(ident, prefer6, t, obs) && d < |obs| && obs[d].layer == LayerDNS && k <= |obs| && l <= |obs|
    requires var fams := Families(obs[d], prefer6);
             |fams| == 2 && Passes(Latest(obs[..k], LayerTCP, fams[0])) && Passes(Latest(obs[..l], LayerTCP, fams[1]))
    ensures Passes(Latest(obs[..l], LayerTCP, Families(obs[d], prefer6)[0]))
  {
    hide Planned, InTurn, Latest, Families;
    var fams := Families(obs[d], prefer6);
    var a := PassAt(obs[..k], fams[0]);
    assert obs[..k][a] == obs[a];
    NoTurningBack(ident, prefer6, t, obs, d, l, a);
  }

  // ---------------------------------------------------------------------------------------
  // At most six

  /** One of six places for each observation a fresh survey can hold. */
  function Place(o: Observation): nat {
    match o.layer
    case LayerDNS => 0
    case LayerTCP => if o.experiment.spec.family == IPv4 then 1 else 2
    case LayerQUIC => 3
    case LayerTLS => 4
    case _ => 5
  }

  lemma PlacesDiffer(ident: Ident, prefer6: bool, t: Target, obs: seq<Observation>, i: nat, j: nat)
    requires FreshRecord(ident, prefer6, t, obs) && i < j < |obs|
    ensures Place(obs[i]) != Place(obs[j])
  {
    hide FreshRecord, Planned, InTurn, FastSpecs, IsCanonical;
    assert Planned(ident, prefer6, t, 0, obs) by { FreshIsPlanned(ident, prefer6, t, obs); }
    PlannedRecordAt(ident, prefer6, t, obs, j);
    PlannedSpec(ident, prefer6, t, 0, obs, i);
    PlannedSpec(ident, prefer6, t, 0, obs, j);
    TreeLayers(t, obs[i].experiment.spec);
    TreeLayers(t, obs[j].experiment.spec);
    if obs[i].layer == obs[j].layer {
      FastProbesOnce(ident, prefer6, t, obs, i, j);
      if obs[i].layer == LayerTLS || obs[i].layer == LayerHTTP { OneAppFamily(ident, prefer6, t, obs, i, j); }
    }
  }

  lemma FreshIsPlanned(ident: Ident, prefer6: bool, t: Target, obs: seq<Observation>)
    requires FreshRecord(ident, prefer6, t, obs)
    ensures Planned(ident, prefer6, t, 0, obs)
  {
  }

  lemma TreeLayers(t: Target, s: Spec)
    requires s in FastSpecs(t)
    ensures s.layer in [LayerDNS, LayerTCP, LayerTLS, LayerHTTP, LayerQUIC]
    ensures s.layer == LayerTCP ==> s.family == IPv4 || s.family == IPv6
  {
    hide DnsSpec, TcpSpec, TlsSpec, HttpSpec, QuicSpec;
  }

  lemma {:induction false} Holes(places: seq<nat>, n: nat)
    requires forall i :: 0 <= i < |places| ==> places[i] < n
    requires forall i, j :: 0 <= i < j < |places| ==> places[i] != places[j]
    ensures |places| <= n
    decreases n
  {
    if |places| > 0 {
      assert places[0] < n;
      if k :| 0 <= k < |places| && places[k] == n - 1 {
        var fewer: seq<nat> := places[..k] + places[k + 1..];
        forall i | 0 <= i < |fewer| ensures fewer[i] < n - 1 {
          assert fewer[i] == places[if i < k then i else i + 1];
        }
        Holes(fewer, n - 1);
      } else {
        Holes(places, n - 1);
      }
    }
  }

  lemma FreshRecordSize(ident: Ident, prefer6: bool, t: Target, obs: seq<Observation>)
    requires FreshRecord(ident, prefer6, t, obs)
    ensures |obs| <= 6
  {
    hide FreshRecord;
    var places := seq(|obs|, i requires 0 <= i < |obs| => Place(obs[i]));
    forall i, j | 0 <= i < j < |obs| ensures places[i] != places[j] { PlacesDiffer(ident, prefer6, t, obs, i, j); }
    Holes(places, 6);
  }

  /** However often a survey started fresh is run and resumed, under any budgets, with any
      outcomes and whatever the IDs, it never records more than six experiments, and probes TLS
      and HTTP on one family only. */
  lemma ResumedWithinSix(ident: Ident, prefer6: bool, t: Target, runs: seq<Attempt>)
    ensures var obs := Resumes(ident, FastPolicy(ident, prefer6), Survey(Some(t), 0, [], []), runs).observations;
            FreshRecord(ident, prefer6, t, obs) && |obs| <= 6
  {
    hide FastPolicy, Resumes, Planned, InTurn, FreshRecord, Normalize;
    var s := Survey(Some(t), 0, [], []);
    var obs := Resumes(ident, FastPolicy(ident, prefer6), s, runs).observations;
    AddedIsPlanned(ident, prefer6, t, s, runs);
    assert InTurn(ident, prefer6, t, s.observations) by { NothingInTurn(ident, prefer6, t); }
    ResumesInTurn(ident, prefer6, t, s, runs);
    ResumesAreSafe(ident, FastPolicy(ident, prefer6), s, runs, CapOf(runs));
    forall i, j | 0 <= i < j < |obs| ensures obs[i].experiment.id != obs[j].experiment.id {
      assert NewlyRecorded(ident, obs, j);
    }
    assert FreshRecord(ident, prefer6, t, obs) by { MakesFresh(ident, prefer6, t, obs); }
    FreshRecordSize(ident, prefer6, t, obs);
  }

  lemma NothingInTurn(ident: Ident, prefer6: bool, t: Target)
    ensures InTurn(ident, prefer6, t, [])
  {
  }

  lemma MakesFresh(ident: Ident, prefer6: bool, t: Target, obs: seq<Observation>)
    requires Planned(ident, prefer6, t, 0, obs) && InTurn(ident, prefer6, t, obs)
    requires forall i, j :: 0 <= i < j < |obs| ==> obs[i].experiment.id != obs[j].experiment.id
    ensures FreshRecord(ident, prefer6, t, obs)
  {
  }
}
