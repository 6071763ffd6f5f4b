/** Bounds and completion of Fast surveys, for any outcomes. */
module FastOrder {
  import opened Model
  import opened Selectors
  import opened Dedupe
  import opened Runs
  import opened Fast
  import opened FastRuns
  import opened FastSequence
  import opened FastCausal

  // ---------------------------------------------------------------------------------------
  // Bounds for outcomes that need not be consistent

  /** What the record says an experiment answered. */
  function Recalled(obs: seq<Observation>, e: Experiment): Option<Observation> {
    if |obs| == 0 then None
    else if obs[|obs| - 1].experiment == e then Some(obs[|obs| - 1])
    else Recalled(obs[..|obs| - 1], e)
  }

  function Recall(obs: seq<Observation>): Answer {
    e => match Recalled(obs, e) case Some(o) => o case None => Observation(e, e.spec.layer, Unknown, 0, [], [], "")
  }

  lemma {:induction false} RecalledIs(obs: seq<Observation>, j: nat)
    requires j < |obs|
    requires forall i, k :: 0 <= i < k < |obs| ==> obs[i].experiment != obs[k].experiment
    ensures Recalled(obs, obs[j].experiment) == Some(obs[j])
  {
    var n := |obs| - 1;
    if j < n {
      assert obs[n].experiment != obs[j].experiment;
      RecalledIs(obs[..n], j);
    }
  }

  ghost predicate Settled(obs: seq<Observation>) {
    forall o :: o in obs ==> o == Settle(o, o.experiment)
  }

  /** A fresh Fast survey never records more than six experiments, whatever the outcomes. */
  lemma FastWithinSix(ident: Ident, prefer6: bool, t: Target, known: set<Spec>, s: Survey)
    requires FastState(ident, prefer6, t, known, [], s) && Settled(s.observations)
    ensures |s.observations| <= 6
  {
    hide Plan, Prerequisites, TcpInOrder, Latest, Rest, Greedy, Planned;
    var obs := s.observations;
    forall i, k | 0 <= i < k < |obs| ensures obs[i].experiment != obs[k].experiment {
      GreedyIsPlanned(ident, prefer6, t, 0, obs);
      PlannedIsCaused(ident, prefer6, t, 0, obs, k);
      assert obs[..k][i] == obs[i] && obs[i] in obs && obs[k] in obs;
      assert !Matches(obs[..k][i], obs[k].layer, obs[k].experiment.spec.family);
    }
    var answer := Recall(obs);
    forall j | 0 <= j < |obs| ensures obs[j] == Told(answer, obs[j].experiment) {
      RecalledIs(obs, j);
      assert obs[j] in obs;
    }
    var none: seq<Observation> := [];
    assert none <= obs;
    assert TcpInOrder(prefer6, none) by { EmptyIsInOrder(prefer6); }
    RestIsConserved(ident, prefer6, t, answer, none, obs);
    RestBounds(ident, prefer6, t, answer, none);
    assert obs[|none|..] == obs;
    assert |Experiments(obs)| == |obs|;
  }

  // ---------------------------------------------------------------------------------------
  // Rounds

  /** The step of the tree a plan starts with: how many more uncapped rounds it can take. */
  function Stage(plan: seq<Experiment>): nat {
    if |plan| == 0 then 0
    else match plan[0].spec.layer
      case LayerDNS => 4
      case LayerTCP | LayerQUIC => 3
      case LayerTLS => 2
      case _ => 1
  }

  ghost predicate SameKey(a: Experiment, b: Experiment) {
    a.spec.layer == b.spec.layer && a.spec.family == b.spec.family
  }

  /** After a batch, a key is taken if it was taken before or is in the batch, and the latest
      observation of any other key is what it was. */
  lemma {:induction false} LatestAfterBatch(obs: seq<Observation>, probe: Probe, batch: seq<Experiment>,
                                            layer: Layer, family: Family)
    requires family != NoFamily || forall i :: 0 <= i < |batch| ==> batch[i].spec.layer != layer
    ensures var done := obs + Batch(probe, |obs|, batch);
            if exists i :: 0 <= i < |batch| && batch[i].spec.layer == layer && batch[i].spec.family == family
            then Latest(done, layer, family).Some?
            else Latest(done, layer, family) == Latest(obs, layer, family)
    decreases |batch|
  {
    hide Latest;
    if |batch| == 0 {
      assert obs + Batch(probe, |obs|, batch) == obs;
    } else {
      var n := |batch| - 1;
      LatestAfterBatch(obs, probe, batch[..n], layer, family);
      var mid := obs + Batch(probe, |obs|, batch[..n]);
      var o := RunOne(probe, |obs| + n, batch[n]);
      assert obs + Batch(probe, |obs|, batch) == mid + [o];
      LatestAppend(mid, o, layer, family);
      if i :| 0 <= i < n && batch[i].spec.layer == layer && batch[i].spec.family == family {
        assert batch[..n][i] == batch[i];
      }
    }
  }

  ghost predicate Taken(obs: seq<Observation>, done: seq<Observation>, batch: seq<Experiment>, e: Experiment) {
    if exists i :: 0 <= i < |batch| && SameKey(batch[i], e)
    then Latest(done, e.spec.layer, e.spec.family).Some?
    else Latest(done, e.spec.layer, e.spec.family) == Latest(obs, e.spec.layer, e.spec.family)
  }

  lemma TakenAfterBatch(obs: seq<Observation>, probe: Probe, batch: seq<Experiment>, e: Experiment)
    requires e.spec.family != NoFamily
    ensures Taken(obs, obs + Batch(probe, |obs|, batch), batch, e)
  {
    hide Latest, Batch;
    LatestAfterBatch(obs, probe, batch, e.spec.layer, e.spec.family);
    if i :| 0 <= i < |batch| && SameKey(batch[i], e) {
      assert batch[i].spec.layer == e.spec.layer && batch[i].spec.family == e.spec.family;
    }
  }

  /** The slots after the whole plan was recorded. */
  ghost predicate FilledBy(plan: seq<Experiment>, e: Experiment, before: Option<Observation>, after: Option<Observation>) {
    if e in plan then after.Some? else after == before
  }

  lemma StageDropsOne(https: bool, m: Menu, f: Family, s: Slots, s': Slots,
                      quic: Option<Observation>, quic': Option<Observation>)
    requires Keyed(m, f)
    requires var plan := NextOne(https, m, s, quic);
             && plan != [] && FilledBy(plan, m.tcp, s.tcp, s'.tcp) && FilledBy(plan, m.tls, s.tls, s'.tls)
             && FilledBy(plan, m.http, s.http, s'.http) && FilledBy(plan, m.quic, quic, quic')
    ensures Stage(NextOne(https, m, s', quic')) < Stage(NextOne(https, m, s, quic)) <= 3
  {
    hide AppNext, NextOne, FilledBy, Keyed;
    var plan := NextOne(https, m, s, quic);
    OneHeadIsFilled(https, m, f, s, s', quic, quic');
    OneHasHead(https, m, s, quic);
    OneHasHead(https, m, s', quic');
    AppStage(https, m, f, s);
    AppStage(https, m, f, s');
    var head := TcpNext(m, s) + QuicNext(https, m, quic);
    assert NextOne(https, m, s', quic') == AppNext(https, m, s');
    if head == [] {
      assert plan == AppNext(https, m, s);
      AppDrops(https, m, f, s, s');
    } else {
      assert plan[0] == head[0];
      OneHeadStage(https, m, f, s, quic);
    }
  }

  lemma OneHasHead(https: bool, m: Menu, s: Slots, quic: Option<Observation>)
    ensures NextOne(https, m, s, quic) == TcpNext(m, s) + QuicNext(https, m, quic) + AppNext(https, m, s)
  {
  }

  lemma OneHeadStage(https: bool, m: Menu, f: Family, s: Slots, quic: Option<Observation>)
    requires Keyed(m, f) && TcpNext(m, s) + QuicNext(https, m, quic) != []
    ensures var e := (TcpNext(m, s) + QuicNext(https, m, quic))[0]; e.spec.layer == LayerTCP || e.spec.layer == LayerQUIC
  {
  }

  lemma OneHeadIsFilled(https: bool, m: Menu, f: Family, s: Slots, s': Slots,
                        quic: Option<Observation>, quic': Option<Observation>)
    requires Keyed(m, f)
    requires var plan := NextOne(https, m, s, quic);
             FilledBy(plan, m.tcp, s.tcp, s'.tcp) && FilledBy(plan, m.quic, quic, quic')
    ensures TcpNext(m, s') == [] && QuicNext(https, m, quic') == []
    ensures s.tcp.Some? ==> s'.tcp == s.tcp
  {
    hide AppNext, NextOne;
    AppStage(https, m, f, s);
    InNextOne(https, m, s, quic, m.tcp);
    InNextOne(https, m, s, quic, m.quic);
  }

  lemma InNextOne(https: bool, m: Menu, s: Slots, quic: Option<Observation>, e: Experiment)
    ensures e in NextOne(https, m, s, quic) <==>
            e in TcpNext(m, s) || e in QuicNext(https, m, quic) || e in AppNext(https, m, s)
  {
    hide TcpNext, QuicNext, AppNext;
  }

  /** TCP on the families and QUIC: what precedes TLS and HTTP in a plan. */
  function Head(https: bool, m: Menu, n: Menu, s: Slots, r: Slots, quic: Option<Observation>): seq<Experiment> {
    TcpNext(m, s) + TcpNext(n, r) + QuicNext(https, m, quic)
  }

  lemma HeadIsFilled(https: bool, m: Menu, n: Menu, f: Family, g: Family, s: Slots, s': Slots,
                      r: Slots, r': Slots, quic: Option<Observation>, quic': Option<Observation>)
    requires Keyed(m, f) && Keyed(n, g) && f != g
    requires var plan := NextTwo(https, m, n, s, r, quic);
             && plan != [] && FilledBy(plan, m.tcp, s.tcp, s'.tcp) && FilledBy(plan, m.tls, s.tls, s'.tls)
             && FilledBy(plan, m.http, s.http, s'.http) && FilledBy(plan, m.quic, quic, quic')
             && FilledBy(plan, n.tcp, r.tcp, r'.tcp) && FilledBy(plan, n.tls, r.tls, r'.tls)
             && FilledBy(plan, n.http, r.http, r'.http)
    ensures Head(https, m, n, s', r', quic') == []
    ensures s.tcp.Some? ==> s'.tcp == s.tcp
    ensures r.tcp.Some? ==> r'.tcp == r.tcp
  {
    hide AppNext, NextTwo;
    AppStage(https, m, f, s);
    AppStage(https, n, g, r);
    InNextTwo(https, m, n, s, r, quic, m.tcp);
    InNextTwo(https, m, n, s, r, quic, n.tcp);
    InNextTwo(https, m, n, s, r, quic, m.quic);
  }

  lemma InNextTwo(https: bool, m: Menu, n: Menu, s: Slots, r: Slots, quic: Option<Observation>, e: Experiment)
    ensures e in NextTwo(https, m, n, s, r, quic) <==>
            e in TcpNext(m, s) || e in TcpNext(n, r) || e in QuicNext(https, m, quic)
            || e in if Passes(s.tcp) then AppNext(https, m, s) else AppNext(https, n, r)
  {
    hide TcpNext, QuicNext, AppNext;
  }

  lemma StageDropsTwo(https: bool, m: Menu, n: Menu, f: Family, g: Family, s: Slots, s': Slots,
                      r: Slots, r': Slots, quic: Option<Observation>, quic': Option<Observation>)
    requires Keyed(m, f) && Keyed(n, g) && f != g
    requires var plan := NextTwo(https, m, n, s, r, quic);
             && plan != [] && FilledBy(plan, m.tcp, s.tcp, s'.tcp) && FilledBy(plan, m.tls, s.tls, s'.tls)
             && FilledBy(plan, m.http, s.http, s'.http) && FilledBy(plan, m.quic, quic, quic')
             && FilledBy(plan, n.tcp, r.tcp, r'.tcp) && FilledBy(plan, n.tls, r.tls, r'.tls)
             && FilledBy(plan, n.http, r.http, r'.http)
    ensures Stage(NextTwo(https, m, n, s', r', quic')) < Stage(NextTwo(https, m, n, s, r, quic)) <= 3
  {
    hide AppNext, Head, NextTwo, FilledBy, Keyed;
    var plan := NextTwo(https, m, n, s, r, quic);
    var app := if Passes(s.tcp) then AppNext(https, m, s) else AppNext(https, n, r);
    var head := Head(https, m, n, s, r, quic);
    HeadIsFilled(https, m, n, f, g, s, s', r, r', quic, quic');
    NextHasHead(https, m, n, s, r, quic);
    NextHasHead(https, m, n, s', r', quic');
    AppStage(https, m, f, s);
    AppStage(https, n, g, r);
    AppStage(https, m, f, s');
    AppStage(https, n, g, r');
    if head == [] {
      NoHead(https, m, n, s, r, quic);
      assert plan == app;
      if Passes(s.tcp) {
        AppDrops(https, m, f, s, s');
      } else {
        AppDrops(https, n, g, r, r');
      }
    } else {
      assert plan[0] == head[0];
      HeadStage(https, m, n, f, g, s, r, quic);
    }
  }

  lemma NextHasHead(https: bool, m: Menu, n: Menu, s: Slots, r: Slots, quic: Option<Observation>)
    ensures NextTwo(https, m, n, s, r, quic) == Head(https, m, n, s, r, quic)
            + if Passes(s.tcp) then AppNext(https, m, s) else AppNext(https, n, r)
  {
  }

  lemma NoHead(https: bool, m: Menu, n: Menu, s: Slots, r: Slots, quic: Option<Observation>)
    requires Head(https, m, n, s, r, quic) == []
    ensures s.tcp.Some? && r.tcp.Some?
  {
  }

  lemma HeadStage(https: bool, m: Menu, n: Menu, f: Family, g: Family, s: Slots, r: Slots, quic: Option<Observation>)
    requires Keyed(m, f) && Keyed(n, g) && Head(https, m, n, s, r, quic) != []
    ensures var e := Head(https, m, n, s, r, quic)[0]; e.spec.layer == LayerTCP || e.spec.layer == LayerQUIC
  {
  }

  lemma AppStage(https: bool, m: Menu, f: Family, s: Slots)
    requires Keyed(m, f)
    ensures Stage(AppNext(https, m, s)) <= 2
    ensures forall e :: e in AppNext(https, m, s) ==> e.spec.family == f && e.spec.layer != LayerTCP
    ensures !Passes(s.tcp) ==> AppNext(https, m, s) == []
  {
  }

  lemma AppDrops(https: bool, m: Menu, f: Family, s: Slots, s': Slots)
    requires Keyed(m, f) && s'.tcp == s.tcp
    requires var plan := AppNext(https, m, s);
             plan != [] && FilledBy(plan, m.tls, s.tls, s'.tls) && FilledBy(plan, m.http, s.http, s'.http)
    ensures Stage(AppNext(https, m, s')) < Stage(AppNext(https, m, s))
  {
  }

  lemma FilledAfterBatch(obs: seq<Observation>, probe: Probe, plan: seq<Experiment>, e: Experiment)
    requires e.spec.family != NoFamily && DistinctKeys(plan)
    requires forall x :: x in plan && SameKey(x, e) ==> x == e
    ensures var done := obs + Batch(probe, |obs|, plan);
            FilledBy(plan, e, Latest(obs, e.spec.layer, e.spec.family), Latest(done, e.spec.layer, e.spec.family))
  {
    hide Latest, Batch;
    TakenAfterBatch(obs, probe, plan, e);
    if e in plan {
      var i :| 0 <= i < |plan| && plan[i] == e;
      assert SameKey(plan[i], e);
    }
  }

  lemma TreeStageDrops(ident: Ident, t: Target, obs: seq<Observation>, fams: seq<Family>, probe: Probe)
    requires fams == [IPv4] || fams == [IPv6] || fams == [IPv4, IPv6] || fams == [IPv6, IPv4]
    requires Tree(ident, t, obs, fams) != []
    requires DistinctKeys(Tree(ident, t, obs, fams))
    ensures var plan := Tree(ident, t, obs, fams);
            var done := obs + Batch(probe, |obs|, plan);
            && Stage(Tree(ident, t, done, fams)) < Stage(plan) <= 3
            && Latest(done, LayerDNS, NoFamily) == Latest(obs, LayerDNS, NoFamily)
  {
    hide Latest, MenuOf, Batch, Stage, FilledBy, NextOne, NextTwo, Make, DistinctKeys, SlotsOf, OnMenus, Tree, Keyed;
    var f := fams[0];
    var g := if f == IPv4 then IPv6 else IPv4;
    var m, n := MenuOf(ident, t, f), MenuOf(ident, t, g);
    var plan := Tree(ident, t, obs, fams);
    var done := obs + Batch(probe, |obs|, plan);
    MadeKeys(ident, t, f);
    MadeKeys(ident, t, g);
    TreeReadsSlots(ident, t, obs, f, g);
    TreeReadsSlots(ident, t, done, f, g);
    assert fams == [f] || fams == [f, g];
    PlanIsOnMenus(t.IsHTTPS(), m, n, f, g, SlotsOf(obs, f), SlotsOf(obs, g), Latest(obs, LayerQUIC, f), plan);
    MenuFilled(obs, probe, plan, m, n, f, g);
    MenusHaveNoDns(m, n, f, g, plan);
    LatestAfterBatch(obs, probe, plan, LayerDNS, NoFamily);
    if |fams| == 1 {
      StageDropsOne(t.IsHTTPS(), m, f, SlotsOf(obs, f), SlotsOf(done, f), Latest(obs, LayerQUIC, f), Latest(done, LayerQUIC, f));
    } else {
      MenuFilled(obs, probe, plan, n, m, g, f);
      StageDropsTwo(t.IsHTTPS(), m, n, f, g, SlotsOf(obs, f), SlotsOf(done, f), SlotsOf(obs, g), SlotsOf(done, g),
                    Latest(obs, LayerQUIC, f), Latest(done, LayerQUIC, f));
    }
  }

  ghost predicate OnMenus(m: Menu, n: Menu, plan: seq<Experiment>) {
    forall i :: 0 <= i < |plan| ==>
      plan[i] in [m.tcp, m.quic, m.tls, m.http, n.tcp, n.tls, n.http, n.quic]
  }

  lemma MenusHaveNoDns(m: Menu, n: Menu, f: Family, g: Family, plan: seq<Experiment>)
    requires Keyed(m, f) && Keyed(n, g) && OnMenus(m, n, plan)
    ensures forall i :: 0 <= i < |plan| ==> plan[i].spec.layer != LayerDNS
  {
  }

  lemma PlanIsOnMenus(https: bool, m: Menu, n: Menu, f: Family, g: Family, s: Slots, r: Slots,
                      quic: Option<Observation>, plan: seq<Experiment>)
    requires plan == NextOne(https, m, s, quic) || plan == NextTwo(https, m, n, s, r, quic)
    ensures OnMenus(m, n, plan)
  {
    forall i | 0 <= i < |plan|
      ensures plan[i] in [m.tcp, m.quic, m.tls, m.http, n.tcp, n.tls, n.http, n.quic]
    {
      NextComesFromMenus(https, m, n, s, r, quic, None, plan[i]);
    }
  }

  lemma MenuFilled(obs: seq<Observation>, probe: Probe, plan: seq<Experiment>, m: Menu, n: Menu, f: Family, g: Family)
    requires Keyed(m, f) && Keyed(n, g) && f != g && f != NoFamily
    requires DistinctKeys(plan) && (OnMenus(m, n, plan) || OnMenus(n, m, plan))
    ensures var done := obs + Batch(probe, |obs|, plan);
            && FilledBy(plan, m.tcp, SlotsOf(obs, f).tcp, SlotsOf(done, f).tcp)
            && FilledBy(plan, m.tls, SlotsOf(obs, f).tls, SlotsOf(done, f).tls)
            && FilledBy(plan, m.http, SlotsOf(obs, f).http, SlotsOf(done, f).http)
            && FilledBy(plan, m.quic, Latest(obs, LayerQUIC, f), Latest(done, LayerQUIC, f))
  {
    hide Latest, Batch, FilledBy, DistinctKeys;
    forall e, x | e in [m.tcp, m.quic, m.tls, m.http] && x in plan && SameKey(x, e) ensures x == e {
      var i :| 0 <= i < |plan| && plan[i] == x;
    }
    FilledAfterBatch(obs, probe, plan, m.tcp);
    FilledAfterBatch(obs, probe, plan, m.tls);
    FilledAfterBatch(obs, probe, plan, m.http);
    FilledAfterBatch(obs, probe, plan, m.quic);
  }

  /** Recording a whole plan, with any outcomes, moves to a later stage of the tree. */
  lemma PlanStageDrops(ident: Ident, prefer6: bool, t: Target, obs: seq<Observation>, probe: Probe)
    requires Plan(ident, prefer6, t, obs) != []
    ensures var plan := Plan(ident, prefer6, t, obs);
            Stage(Plan(ident, prefer6, t, obs + Batch(probe, |obs|, plan))) < Stage(plan) <= 4
  {
    hide Latest, Tree, Families, Make, DnsSpec;
    var plan := Plan(ident, prefer6, t, obs);
    var dns := Latest(obs, LayerDNS, NoFamily);
    PlanHasDistinctKeys(ident, prefer6, t, obs);
    if dns.Some? {
      FamiliesAreKnown(dns.value, prefer6);
      assert Families(dns.value, prefer6) != [] by { NoTree(ident, t, obs); }
      TreeStageDrops(ident, t, obs, Families(dns.value, prefer6), probe);
    } else {
      DnsIsDns(ident, t);
      var o := RunOne(probe, |obs|, plan[0]);
      assert obs + Batch(probe, |obs|, plan) == obs + [o];
      LatestAppend(obs, o, LayerDNS, NoFamily);
      FamiliesAreKnown(o, prefer6);
      TreeStageAtMostThree(ident, t, obs + [o], Families(o, prefer6));
    }
  }

  lemma TreeStageAtMostThree(ident: Ident, t: Target, obs: seq<Observation>, fams: seq<Family>)
    requires fams == [] || fams == [IPv4] || fams == [IPv6] || fams == [IPv4, IPv6] || fams == [IPv6, IPv4]
    ensures Stage(Tree(ident, t, obs, fams)) <= 3
  {
    hide Latest, MenuOf, Make;
    if fams != [] {
      var f := fams[0];
      var g := if f == IPv4 then IPv6 else IPv4;
      MadeKeys(ident, t, f);
      MadeKeys(ident, t, g);
      TreeReadsSlots(ident, t, obs, f, g);
      assert fams == [f] || fams == [f, g];
      NextStage(t.IsHTTPS(), MenuOf(ident, t, f), MenuOf(ident, t, g), f, g,
                SlotsOf(obs, f), SlotsOf(obs, g), Latest(obs, LayerQUIC, f));
    }
  }

  lemma NextStage(https: bool, m: Menu, n: Menu, f: Family, g: Family, s: Slots, r: Slots, quic: Option<Observation>)
    requires Keyed(m, f) && Keyed(n, g)
    ensures Stage(NextOne(https, m, s, quic)) <= 3 && Stage(NextTwo(https, m, n, s, r, quic)) <= 3
  {
  }

  lemma StepIsSettled(probe: Probe, s: Survey, batch: seq<Experiment>)
    requires Settled(s.observations)
    ensures Settled(Step(probe, s, batch).observations)
  {
    var more := Batch(probe, |s.observations|, batch);
    forall o | o in s.observations + more ensures o == Settle(o, o.experiment) {
      if o !in s.observations {
        var i :| 0 <= i < |more| && more[i] == o;
      }
    }
  }

  /** The plan always fits in what six experiments leave. */
  lemma PlanFits(ident: Ident, prefer6: bool, t: Target, known: set<Spec>, s: Survey)
    requires FastState(ident, prefer6, t, known, [], s) && Settled(s.observations) && Admissible(ident, t, known)
    ensures |s.observations| + |Plan(ident, prefer6, t, s.observations)| <= 6
  {
    hide Plan, TcpInOrder, Greedy, WellFormed, FastSpecs, Settled;
    var probe: Probe := (at: nat, e: Experiment) => Observation(e, e.spec.layer, Pass, 0, [], [], "");
    var plan := Plan(ident, prefer6, t, s.observations);
    var f := Step(probe, s, plan);
    BatchIsGreedy(ident, prefer6, t, 0, s.observations, probe, plan);
    BatchIsWellFormed(ident, prefer6, t, known, s.observations, probe, plan);
    StepIsSettled(probe, s, plan);
    FastWithinSix(ident, prefer6, t, known, f);
  }

  /** With room for six probes, a fresh Fast survey takes at most four rounds, and only an
      expired context leaves it unfinished, whatever the outcomes. */
  lemma {:induction false} FastFourRounds(ident: Ident, prefer6: bool, t: Target, known: set<Spec>,
                                          probe: Probe, expired: nat -> bool, s: Survey, budget: nat, k: nat)
    requires FastState(ident, prefer6, t, known, [], s) && Settled(s.observations) && Admissible(ident, t, known)
    requires budget + |s.observations| >= 6
    requires k + Stage(Plan(ident, prefer6, t, s.observations)) < MAX_ROUNDS
    ensures var pol := FastPolicy(ident, prefer6);
            var r := Rounds(ident, pol, probe, expired, s, budget, k);
            && |r.final.rounds| - |s.rounds| <= Stage(Plan(ident, prefer6, t, s.observations))
            && (r.why.ContextOver? || pol.done(r.final))
    decreases MAX_ROUNDS - k
  {
    hide Plan, TcpInOrder, Greedy, WellFormed, FastSpecs, Settled, Fresh, Stage, NoCollision;
    var pol := FastPolicy(ident, prefer6);
    var plan := Plan(ident, prefer6, t, s.observations);
    PlanFits(ident, prefer6, t, known, s);
    if plan != [] && !expired(k) {
      FastProposal(ident, prefer6, t, s, known, budget);
      assert plan[..|plan|] == plan;
      var f := Step(probe, s, plan);
      FastStep(ident, prefer6, t, known, [], s, probe, budget);
      StepIsSettled(probe, s, plan);
      PlanStageDrops(ident, prefer6, t, s.observations, probe);
      FastFourRounds(ident, prefer6, t, known, probe, expired, f, budget - |plan|, k + 1);
    }
  }

  /** The same for a whole run started fresh. */
  lemma FreshFastSurvey(ident: Ident, prefer6: bool, t: Target, a: Attempt)
    requires NoCollision(ident, FastSpecs(t)) && FillMaxProbes(a.maxProbes) >= 6
    ensures var pol := FastPolicy(ident, prefer6);
            var r := Run(ident, pol, Survey(Some(t), 0, [], []), a);
            && |r.final.rounds| <= 4 && |r.final.observations| <= 6
            && (r.why.ContextOver? || pol.done(r.final))
  {
    hide Plan, FastSpecs, NoCollision, Stage, Families;
    var s := Survey(Some(t), 0, [], []);
    EmptyIsInOrder(prefer6);
    assert FastState(ident, prefer6, t, FastSpecs(t), [], s);
    StageAtMostFour(ident, prefer6, t, []);
    FastFourRounds(ident, prefer6, t, FastSpecs(t), a.probe, a.expired, s, InitialBudget(a.maxProbes, s), 0);
    FastRunKeeps(ident, prefer6, t, FastSpecs(t), [], s, a);
    RunIsSettled(ident, FastPolicy(ident, prefer6), s, a);
    FastWithinSix(ident, prefer6, t, FastSpecs(t), Run(ident, FastPolicy(ident, prefer6), s, a).final);
  }

  lemma StageAtMostFour(ident: Ident, prefer6: bool, t: Target, obs: seq<Observation>)
    ensures Stage(Plan(ident, prefer6, t, obs)) <= 4
  {
  }

  lemma RunIsSettled(ident: Ident, pol: Policy, s: Survey, a: Attempt)
    requires Settled(s.observations)
    ensures Settled(Run(ident, pol, s, a).final.observations)
  {
    hide Settled, Fresh;
    var inv := (st: Survey) => Settled(st.observations);
    forall st: Survey, b: nat | inv(st) && 0 < b && !pol.done(st) && pol.propose(st, b).Success?
      ensures inv(Step(a.probe, st, Fresh(ident, st.observations, {}, pol.propose(st, b).value, b)))
    {
      StepIsSettled(a.probe, st, Fresh(ident, st.observations, {}, pol.propose(st, b).value, b));
    }
    RoundsKeep(ident, pol, a.probe, a.expired, s, InitialBudget(a.maxProbes, s), 0, inv);
  }

  // ---------------------------------------------------------------------------------------
  // Completion

  lemma FastSpecsCount(t: Target)
    ensures |FastSpecs(t)| <= 9
  {
    hide DnsSpec, TcpSpec, TlsSpec, HttpSpec, QuicSpec;
    assert |FamilySpecs(t, IPv4)| <= 4 && |FamilySpecs(t, IPv6)| <= 4;
  }

  /** Whatever the record, what is executed carries IDs of the tree's experiments. */
  lemma FastBatchIds(ident: Ident, prefer6: bool, t: Target, s: Survey, budget: nat)
    requires s.target == Some(t)
    ensures var pol := FastPolicy(ident, prefer6);
            pol.propose(s, budget).Success? &&
            IdsOf(Fresh(ident, s.observations, {}, pol.propose(s, budget).value, budget)) <= IdsOfSpecs(ident, FastSpecs(t))
  {
    hide Plan, FastSpecs, Fresh, DistinctKeys;
    BatchWasPlanned(ident, prefer6, t, s, budget);
    var pol := FastPolicy(ident, prefer6);
    var batch := Fresh(ident, s.observations, {}, pol.propose(s, budget).value, budget);
    forall id | id in IdsOf(batch) ensures id in IdsOfSpecs(ident, FastSpecs(t)) {
      var e :| e in batch && e.id == id;
      PlanElement(ident, prefer6, t, s.observations, e);
      var x :| x in FastSpecs(t) && e == Make(ident, x);
      MadeIsNormal(ident, t, x);
    }
  }

  /** From any state whatever and for any outcomes, a Fast run records at most the unrecorded
      part of nine experiments, in at most as many rounds, and never ends because of the round
      limit. */
  lemma FastTerminates(ident: Ident, prefer6: bool, t: Target, s: Survey, a: Attempt)
    requires s.target == Some(t)
    ensures var r := Run(ident, FastPolicy(ident, prefer6), s, a);
            var open := IdsOfSpecs(ident, FastSpecs(t)) - Ids(s.observations);
            && |r.final.rounds| - |s.rounds| <= |open| <= 9
            && |r.final.observations| - |s.observations| <= |open|
            && !r.why.RoundLimit?
            && (r.why.BudgetSpent? ==> InitialBudget(a.maxProbes, s) <= |open|)
  {
    hide FastPolicy, Fresh, FastSpecs, Ids, IdsOf, IdsOfSpecs;
    var pol := FastPolicy(ident, prefer6);
    var universe := IdsOfSpecs(ident, FastSpecs(t));
    FastSpecsCount(t);
    IdsOfSpecsCount(ident, FastSpecs(t));
    assert |universe - Ids(s.observations)| <= |universe|;
    var inv := (st: Survey) => st.target == Some(t);
    forall st: Survey, b: nat | inv(st) && 0 < b && !pol.done(st) && pol.propose(st, b).Success?
      ensures var batch := Fresh(ident, st.observations, {}, pol.propose(st, b).value, b);
              inv(Step(a.probe, st, batch)) && IdsOf(batch) <= universe
    {
      FastBatchIds(ident, prefer6, t, st, b);
    }
    RoundsExhaust(ident, pol, a.probe, a.expired, s, InitialBudget(a.maxProbes, s), 0, universe, inv);
  }

  /** On a well-formed record an unfinished Fast policy always gets something new past the
      runner's deduplication, and recording it keeps the record well-formed. */
  lemma FastProgress(ident: Ident, prefer6: bool, t: Target, known: set<Spec>, s: Survey, probe: Probe, budget: nat)
    requires KnownState(ident, t, known, s) && Admissible(ident, t, known)
    requires budget > 0 && !FastPolicy(ident, prefer6).done(s)
    ensures var pol := FastPolicy(ident, prefer6);
            pol.propose(s, budget).Success? &&
            var batch := Fresh(ident, s.observations, {}, pol.propose(s, budget).value, budget);
            batch != [] && KnownState(ident, t, known, Step(probe, s, batch))
  {
    hide Plan, WellFormed, FastSpecs, Fresh, NoCollision;
    FastProposal(ident, prefer6, t, s, known, budget);
    var plan := Plan(ident, prefer6, t, s.observations);
    var batch := plan[..if budget < |plan| then budget else |plan|];
    BatchIsWellFormed(ident, prefer6, t, known, s.observations, probe, batch);
  }

  /** From any well-formed record, whatever the order it was made in and whatever the outcomes, a
      Fast run ends only because the policy is done, the budget is spent or the context is
      over. */
  lemma FastRunEnds(ident: Ident, prefer6: bool, t: Target, known: set<Spec>, s: Survey, a: Attempt)
    requires KnownState(ident, t, known, s) && Admissible(ident, t, known)
    ensures var r := Run(ident, FastPolicy(ident, prefer6), s, a);
            && (r.why.PolicyDone? || r.why.BudgetSpent? || r.why.ContextOver?)
            && (r.why.PolicyDone? ==> FastPolicy(ident, prefer6).done(r.final))
            && (r.why.ContextOver? ==> exists k: nat :: a.expired(k))
            && KnownState(ident, t, known, r.final)
  {
    hide KnownState, Admissible, FastPolicy, Fresh, Step;
    var pol := FastPolicy(ident, prefer6);
    var inv := (st: Survey) => KnownState(ident, t, known, st);
    forall st: Survey, b: nat | inv(st) && 0 < b && !pol.done(st)
      ensures pol.propose(st, b).Success?
      ensures var batch := Fresh(ident, st.observations, {}, pol.propose(st, b).value, b);
              batch != [] && inv(Step(a.probe, st, batch))
    {
      FastProgress(ident, prefer6, t, known, st, a.probe, b);
    }
    RoundsProgress(ident, pol, a.probe, a.expired, s, InitialBudget(a.maxProbes, s), 0, inv);
    assert s.target == Some(t) by { KnownTarget(ident, t, known, s); }
    FastTerminates(ident, prefer6, t, s, a);
  }

  lemma KnownTarget(ident: Ident, t: Target, known: set<Spec>, s: Survey)
    requires KnownState(ident, t, known, s)
    ensures s.target == Some(t)
  {
  }

  /** An uninterrupted run against a consistent network measures exactly as much of the fixed
      sequence as its budget allows. */
  lemma FastRunIsExact(ident: Ident, prefer6: bool, t: Target, known: set<Spec>, answer: Answer,
                       s: Survey, a: Attempt)
    requires Startable(ident, prefer6, t, known, s)
    requires Consistent(answer, a) && forall k: nat :: !a.expired(k)
    ensures var f := Run(ident, FastPolicy(ident, prefer6), s, a).final;
            var whole := Rest(ident, prefer6, t, answer, s.observations);
            var budget := InitialBudget(a.maxProbes, s);
            && |s.observations| <= |f.observations|
            && Experiments(f.observations[|s.observations|..]) ==
               whole[..if budget < |whole| then budget else |whole|]
  {
    hide Plan, FastState, Admissible, Rest, FastPolicy, Fresh, Consistent, Experiments, Step, Continues;
    var pol := FastPolicy(ident, prefer6);
    var base := s.observations;
    var budget := InitialBudget(a.maxProbes, s);
    var r := Run(ident, pol, s, a);
    assert KnownState(ident, t, known, s) by { StartIsKnown(ident, prefer6, t, known, s); }
    FastRunEnds(ident, prefer6, t, known, s, a);
    assert [a][1..] == [];
    assert Resumes(ident, pol, s, [a]) == r.final;
    ResumedIsPrefix(ident, prefer6, t, known, answer, s, [a]);
    RoundsAreSafe(ident, pol, a.probe, a.expired, s, budget, 0);
    ExperimentsCount(r.final.observations[|base|..]);
    if r.why.BudgetSpent? {
      BudgetSpentExactly(ident, pol, a.probe, a.expired, s, budget, 0);
    }
  }

  lemma StartIsKnown(ident: Ident, prefer6: bool, t: Target, known: set<Spec>, s: Survey)
    requires Startable(ident, prefer6, t, known, s)
    ensures KnownState(ident, t, known, s)
  {
  }

  lemma ExperimentsCount(obs: seq<Observation>)
    ensures |Experiments(obs)| == |obs|
  {
  }
}
