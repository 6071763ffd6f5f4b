/** The fixed experiment sequence of the Fast policy: what remains to be measured is
    conserved, so interrupted and resumed surveys end where an uninterrupted one does. */
module FastSequence {
  import opened Model
  import opened Selectors
  import opened Dedupe
  import opened Runs
  import opened Fast
  import opened FastRuns

  /** The network answers an experiment the same way whenever it is asked. */
  type Answer = Experiment -> Observation

  function Told(answer: Answer, e: Experiment): Observation {
    Settle(answer(e), e)
  }

  /** The recorded observation, or the one the network would give. */
  function Eventual(answer: Answer, slot: Option<Observation>, e: Experiment): Observation {
    if slot.Some? then slot.value else Told(answer, e)
  }

  /** TLS and HTTP still to come on a family whose TCP passes. */
  function AppRest(https: bool, answer: Answer, m: Menu, tls: Option<Observation>, http: Option<Observation>)
    : seq<Experiment>
  {
    var last := if http.None? then [m.http] else [];
    if !https then last
    else (if tls.None? then [m.tls] else [])
         + if Eventual(answer, tls, m.tls).status == Pass then last else []
  }

  function RestOne(https: bool, answer: Answer, m: Menu, s: Slots, quic: Option<Observation>): seq<Experiment> {
    TcpNext(m, s) + QuicNext(https, m, quic)
    + if Eventual(answer, s.tcp, m.tcp).status == Pass then AppRest(https, answer, m, s.tls, s.http) else []
  }

  function RestTwo(https: bool, answer: Answer, m: Menu, n: Menu, s: Slots, r: Slots,
                   quic: Option<Observation>): seq<Experiment>
  {
    TcpNext(m, s) + TcpNext(n, r) + QuicNext(https, m, quic)
    + if Eventual(answer, s.tcp, m.tcp).status == Pass then AppRest(https, answer, m, s.tls, s.http)
      else if Eventual(answer, r.tcp, n.tcp).status == Pass then AppRest(https, answer, n, r.tls, r.http) else []
  }

  function TreeRest(ident: Ident, t: Target, answer: Answer, obs: seq<Observation>, fams: seq<Family>): seq<Experiment>
  {
    var https := t.IsHTTPS();
    if |fams| == 0 then []
    else
      var f := fams[0];
      var m, s, quic := MenuOf(ident, t, f), SlotsOf(obs, f), Latest(obs, LayerQUIC, f);
      if |fams| == 1 then RestOne(https, answer, m, s, quic)
      else RestTwo(https, answer, m, MenuOf(ident, t, fams[1]), s, SlotsOf(obs, fams[1]), quic)
  }

  /** Everything the tree would still measure after `obs` if it ran to the end: DNS, TCP for
      each resolved family in preference order, QUIC on the preferred family, then TLS and
      HTTP on the first family whose TCP passes. On the empty record this is the whole
      sequence. */
  function Rest(ident: Ident, prefer6: bool, t: Target, answer: Answer, obs: seq<Observation>): seq<Experiment> {
    var e := Make(ident, DnsSpec(t, ResolverSystem));
    var dns := Eventual(answer, Latest(obs, LayerDNS, NoFamily), e);
    (if Latest(obs, LayerDNS, NoFamily).None? then [e] else [])
    + if dns.status == Pass then TreeRest(ident, t, answer, obs, Families(dns, prefer6)) else []
  }

  lemma RestOneStep(https: bool, answer: Answer, m: Menu, f: Family, s: Slots, quic: Option<Observation>, e: Experiment)
    requires Keyed(m, f)
    requires NextOne(https, m, s, quic) != [] && e == NextOne(https, m, s, quic)[0]
    ensures var o := Told(answer, e);
            RestOne(https, answer, m, s, quic) ==
            [e] + RestOne(https, answer, m, Write(s, o, f), WriteQuic(quic, o, f))
  {
    hide AppRest, AppNext;
    var o := Told(answer, e);
    if s.tcp.None? {
      assert e == m.tcp && Write(s, o, f) == s.(tcp := Some(o)) && WriteQuic(quic, o, f) == quic;
      assert RestOne(https, answer, m, s, quic)[0] == e;
    } else if https && quic.None? {
      assert e == m.quic && Write(s, o, f) == s && WriteQuic(quic, o, f) == Some(o);
    } else {
      AppStep(https, answer, m, f, s, e);
    }
  }

  lemma RestTwoStep(https: bool, answer: Answer, m: Menu, n: Menu, f: Family, g: Family,
                    s: Slots, r: Slots, quic: Option<Observation>, e: Experiment)
    requires Keyed(m, f) && Keyed(n, g) && f != g
    requires r.tcp.Some? ==> s.tcp.Some?
    requires NextTwo(https, m, n, s, r, quic) != [] && e == NextTwo(https, m, n, s, r, quic)[0]
    ensures var o := Told(answer, e);
            RestTwo(https, answer, m, n, s, r, quic) ==
            [e] + RestTwo(https, answer, m, n, Write(s, o, f), Write(r, o, g), WriteQuic(quic, o, f))
  {
    hide AppRest, AppNext;
    if s.tcp.None? || r.tcp.None? {
      RestTwoTcpStep(https, answer, m, n, f, g, s, r, quic, e);
    } else if https && quic.None? {
      var o := Told(answer, e);
      assert e == m.quic && Write(s, o, f) == s && Write(r, o, g) == r && WriteQuic(quic, o, f) == Some(o);
    } else {
      RestTwoAppStep(https, answer, m, n, f, g, s, r, quic, e);
    }
  }

  lemma RestTwoTcpStep(https: bool, answer: Answer, m: Menu, n: Menu, f: Family, g: Family,
                       s: Slots, r: Slots, quic: Option<Observation>, e: Experiment)
    requires Keyed(m, f) && Keyed(n, g) && f != g
    requires r.tcp.None? && e == if s.tcp.None? then m.tcp else n.tcp
    ensures var o := Told(answer, e);
            RestTwo(https, answer, m, n, s, r, quic) ==
            [e] + RestTwo(https, answer, m, n, Write(s, o, f), Write(r, o, g), WriteQuic(quic, o, f))
  {
    hide AppRest;
    var o := Told(answer, e);
    assert WriteQuic(quic, o, f) == quic;
    var rest := RestTwo(https, answer, m, n, s, r, quic);
    if s.tcp.None? {
      assert Write(s, o, f) == s.(tcp := Some(o)) && Write(r, o, g) == r;
    } else {
      assert Write(s, o, f) == s && Write(r, o, g) == r.(tcp := Some(o));
    }
    assert rest[0] == e;
  }

  lemma RestTwoAppStep(https: bool, answer: Answer, m: Menu, n: Menu, f: Family, g: Family,
                       s: Slots, r: Slots, quic: Option<Observation>, e: Experiment)
    requires Keyed(m, f) && Keyed(n, g) && f != g
    requires s.tcp.Some? && r.tcp.Some? && !(https && quic.None?)
    requires var app := if Passes(s.tcp) then AppNext(https, m, s) else AppNext(https, n, r);
             app != [] && e == app[0]
    ensures var o := Told(answer, e);
            RestTwo(https, answer, m, n, s, r, quic) ==
            [e] + RestTwo(https, answer, m, n, Write(s, o, f), Write(r, o, g), WriteQuic(quic, o, f))
  {
    hide AppRest, AppNext;
    if Passes(s.tcp) {
      AppStep(https, answer, m, f, s, e);
    } else {
      AppStep(https, answer, n, g, r, e);
    }
  }

  lemma AppStep(https: bool, answer: Answer, m: Menu, f: Family, s: Slots, e: Experiment)
    requires Keyed(m, f)
    requires AppNext(https, m, s) != [] && e == AppNext(https, m, s)[0]
    ensures var s' := Write(s, Told(answer, e), f);
            && Passes(s.tcp) && s'.tcp == s.tcp
            && e.spec.family == f && (e.spec.layer == LayerTLS || e.spec.layer == LayerHTTP)
            && AppRest(https, answer, m, s.tls, s.http) == [e] + AppRest(https, answer, m, s'.tls, s'.http)
  {
  }

  lemma NothingNextNothingLeft(https: bool, answer: Answer, m: Menu, n: Menu,
                               s: Slots, r: Slots, quic: Option<Observation>)
    ensures NextOne(https, m, s, quic) == [] <==> RestOne(https, answer, m, s, quic) == []
    ensures NextTwo(https, m, n, s, r, quic) == [] <==> RestTwo(https, answer, m, n, s, r, quic) == []
  {
  }

  /** The conservation step: recording the first planned experiment moves exactly that
      experiment out of the rest. */
  lemma RestStep(ident: Ident, prefer6: bool, t: Target, answer: Answer, obs: seq<Observation>, o: Observation)
    requires TcpInOrder(prefer6, obs)
    requires GreedyAt(ident, prefer6, t, obs, o) && o == Told(answer, o.experiment)
    ensures Rest(ident, prefer6, t, answer, obs) ==
            [o.experiment] + Rest(ident, prefer6, t, answer, obs + [o])
  {
    hide Families, MenuOf, SlotsOf, Make, Latest, Tree, DnsSpec, TreeRest;
    LatestAppend(obs, o, LayerDNS, NoFamily);
    var dns := Latest(obs, LayerDNS, NoFamily);
    if dns.None? {
      DnsIsDns(ident, t);
      FamiliesAreKnown(o, prefer6);
      DnsLeavesTree(ident, t, answer, obs, o, Families(o, prefer6));
    } else {
      TreeRestStep(ident, t, answer, obs, o, Families(dns.value, prefer6));
    }
  }

  lemma DnsIsDns(ident: Ident, t: Target)
    ensures Make(ident, DnsSpec(t, ResolverSystem)).spec.layer == LayerDNS
  {
  }

  lemma FamiliesAreKnown(dns: Observation, prefer6: bool)
    ensures var fams := Families(dns, prefer6);
            fams == [] || fams == [IPv4] || fams == [IPv6] || fams == [IPv4, IPv6] || fams == [IPv6, IPv4]
  {
  }

  lemma DnsLeavesTree(ident: Ident, t: Target, answer: Answer, obs: seq<Observation>, o: Observation, fams: seq<Family>)
    requires o.layer == LayerDNS
    requires fams == [] || fams == [IPv4] || fams == [IPv6] || fams == [IPv4, IPv6] || fams == [IPv6, IPv4]
    ensures TreeRest(ident, t, answer, obs + [o], fams) == TreeRest(ident, t, answer, obs, fams)
  {
    hide RestOne, RestTwo, MenuOf, SlotsOf, Latest;
    DnsLeavesSlots(obs, o, IPv4);
    DnsLeavesSlots(obs, o, IPv6);
  }

  lemma DnsLeavesSlots(obs: seq<Observation>, o: Observation, f: Family)
    requires o.layer == LayerDNS && f != NoFamily
    ensures SlotsOf(obs + [o], f) == SlotsOf(obs, f)
    ensures Latest(obs + [o], LayerQUIC, f) == Latest(obs, LayerQUIC, f)
  {
    SlotsAppend(obs, o, f);
  }

  lemma TreeRestStep(ident: Ident, t: Target, answer: Answer, obs: seq<Observation>, o: Observation, fams: seq<Family>)
    requires fams == [] || fams == [IPv4] || fams == [IPv6] || fams == [IPv4, IPv6] || fams == [IPv6, IPv4]
    requires |fams| == 2 && Latest(obs, LayerTCP, fams[1]).Some? ==> Latest(obs, LayerTCP, fams[0]).Some?
    requires Tree(ident, t, obs, fams) != [] && o == Told(answer, Tree(ident, t, obs, fams)[0])
    ensures o.layer != LayerDNS
    ensures TreeRest(ident, t, answer, obs, fams) == [o.experiment] + TreeRest(ident, t, answer, obs + [o], fams)
  {
    hide MenuOf, Latest, Make, NextOne, NextTwo, RestOne, RestTwo, Write, WriteQuic;
    var f := fams[0];
    var g := if |fams| == 2 then fams[1] else if f == IPv4 then IPv6 else IPv4;
    var m, n := MenuOf(ident, t, f), MenuOf(ident, t, g);
    MadeKeys(ident, t, f);
    MadeKeys(ident, t, g);
    SlotsAppend(obs, o, f);
    SlotsAppend(obs, o, g);
    TreeReadsSlots(ident, t, obs, f, g);
    TreeTail(ident, t, obs, o, fams);
    var s, r, quic := SlotsOf(obs, f), SlotsOf(obs, g), Latest(obs, LayerQUIC, f);
    if |fams| == 1 {
      assert fams == [f];
      RestOneStep(t.IsHTTPS(), answer, m, f, s, quic, o.experiment);
    } else {
      assert fams == [f, g];
      RestTwoStep(t.IsHTTPS(), answer, m, n, f, g, s, r, quic, o.experiment);
    }
  }

  /** At most six experiments, and nothing is left exactly when nothing is planned. */
  lemma RestBounds(ident: Ident, prefer6: bool, t: Target, answer: Answer, obs: seq<Observation>)
    ensures |Rest(ident, prefer6, t, answer, obs)| <= 6
    ensures Rest(ident, prefer6, t, answer, obs) == [] <==> Plan(ident, prefer6, t, obs) == []
  {
    hide MenuOf, SlotsOf, Make, Latest, Families, RestOne, RestTwo, NextOne, NextTwo;
    var e := Make(ident, DnsSpec(t, ResolverSystem));
    var dns := Eventual(answer, Latest(obs, LayerDNS, NoFamily), e);
    var fams := Families(dns, prefer6);
    FamiliesAreKnown(dns, prefer6);
    if |fams| > 0 {
      var f := fams[0];
      var g := if |fams| == 2 then fams[1] else fams[0];
      var m, n, s, r := MenuOf(ident, t, f), MenuOf(ident, t, g), SlotsOf(obs, f), SlotsOf(obs, g);
      TreeReadsSlots(ident, t, obs, f, g);
      NothingNextNothingLeft(t.IsHTTPS(), answer, m, n, s, r, Latest(obs, LayerQUIC, f));
      AtMostFive(t.IsHTTPS(), answer, m, n, s, r, Latest(obs, LayerQUIC, f));
      assert fams == [f] || fams == [f, g];
    }
  }

  lemma AtMostFive(https: bool, answer: Answer, m: Menu, n: Menu, s: Slots, r: Slots, quic: Option<Observation>)
    ensures |RestOne(https, answer, m, s, quic)| <= 5
    ensures |RestTwo(https, answer, m, n, s, r, quic)| <= 5
  {
  }

  ghost predicate AnsweredBy(answer: Answer, from: nat, obs: seq<Observation>) {
    forall j :: from <= j < |obs| ==> obs[j] == Told(answer, obs[j].experiment)
  }

  /** Conservation: on a greedy record, what was measured since `base` followed by what is
      left is what was left at `base`. */
  lemma {:induction false} RestIsConserved(ident: Ident, prefer6: bool, t: Target, answer: Answer,
                                           base: seq<Observation>, obs: seq<Observation>)
    requires base <= obs && TcpInOrder(prefer6, base)
    requires Greedy(ident, prefer6, t, |base|, obs) && AnsweredBy(answer, |base|, obs)
    ensures Experiments(obs[|base|..]) + Rest(ident, prefer6, t, answer, obs) == Rest(ident, prefer6, t, answer, base)
    ensures TcpInOrder(prefer6, obs)
    decreases |obs|
  {
    hide Rest, TcpInOrder, Told, Plan;
    if |obs| == |base| {
      assert obs == base && obs[|base|..] == [];
    } else {
      var n := |obs| - 1;
      var before, o := obs[..n], obs[n];
      assert obs == before + [o];
      forall i | |base| <= i < |before|
        ensures GreedyAt(ident, prefer6, t, before[..i], before[i]) && before[i] == Told(answer, before[i].experiment)
      {
        assert before[..i] == obs[..i] && before[i] == obs[i];
      }
      RestIsConserved(ident, prefer6, t, answer, base, before);
      assert GreedyAt(ident, prefer6, t, obs[..n], obs[n]);
      PlanTail(ident, prefer6, t, before, o);
      RestStep(ident, prefer6, t, answer, before, o);
      assert Experiments(obs[|base|..]) == Experiments(before[|base|..]) + [o.experiment];
    }
  }

  // ---------------------------------------------------------------------------------------
  // Runs against a network that answers consistently

  ghost predicate Consistent(answer: Answer, a: Attempt) {
    forall at: nat, e: Experiment :: a.probe(at, e) == answer(e)
  }

  lemma ConsistentRun(ident: Ident, pol: Policy, answer: Answer, from: nat, s: Survey, a: Attempt)
    requires Consistent(answer, a) && AnsweredBy(answer, from, s.observations)
    ensures AnsweredBy(answer, from, Run(ident, pol, s, a).final.observations)
  {
    hide Fresh, Told;
    var inv := (st: Survey) => AnsweredBy(answer, from, st.observations);
    forall st: Survey, b: nat | inv(st) && 0 < b && !pol.done(st) && pol.propose(st, b).Success?
      ensures inv(Step(a.probe, st, Fresh(ident, st.observations, {}, pol.propose(st, b).value, b)))
    {
      var batch := Fresh(ident, st.observations, {}, pol.propose(st, b).value, b);
      StepAnswered(answer, from, a, st, batch);
    }
    RoundsKeep(ident, pol, a.probe, a.expired, s, InitialBudget(a.maxProbes, s), 0, inv);
  }

  lemma StepAnswered(answer: Answer, from: nat, a: Attempt, s: Survey, batch: seq<Experiment>)
    requires Consistent(answer, a) && AnsweredBy(answer, from, s.observations)
    ensures AnsweredBy(answer, from, Step(a.probe, s, batch).observations)
  {
  }

  lemma {:induction false} ConsistentResumes(ident: Ident, pol: Policy, answer: Answer, from: nat,
                                             s: Survey, runs: seq<Attempt>)
    requires forall a :: a in runs ==> Consistent(answer, a)
    requires AnsweredBy(answer, from, s.observations)
    ensures AnsweredBy(answer, from, Resumes(ident, pol, s, runs).observations)
    decreases runs
  {
    hide Run, AnsweredBy, Consistent;
    if |runs| > 0 {
      assert runs[0] in runs;
      ConsistentRun(ident, pol, answer, from, s, runs[0]);
      ConsistentResumes(ident, pol, answer, from, Run(ident, pol, s, runs[0]).final, runs[1..]);
    }
  }

  /** A survey state the theorems start from: a fresh one, or any well-formed record that
      dialed TCP in order. */
  ghost predicate Startable(ident: Ident, prefer6: bool, t: Target, known: set<Spec>, s: Survey) {
    FastState(ident, prefer6, t, known, s.observations, s) && Admissible(ident, t, known)
  }

  /** A fresh survey is such a state as soon as IDs separate the tree's own experiments. */
  lemma FreshIsStartable(ident: Ident, prefer6: bool, t: Target)
    requires NoCollision(ident, FastSpecs(t))
    ensures Startable(ident, prefer6, t, FastSpecs(t), Survey(Some(t), 0, [], []))
  {
    hide FastSpecs, Plan;
    EmptyIsInOrder(prefer6);
  }

  lemma EmptyIsInOrder(prefer6: bool)
    ensures TcpInOrder(prefer6, [])
  {
  }

  /** Interrupted anywhere and resumed any number of times, a survey has measured a prefix of
      one fixed sequence, and recorded exactly what the network answers to it. */
  lemma ResumedIsPrefix(ident: Ident, prefer6: bool, t: Target, known: set<Spec>, answer: Answer,
                        s: Survey, runs: seq<Attempt>)
    requires Startable(ident, prefer6, t, known, s)
    requires forall a :: a in runs ==> Consistent(answer, a)
    ensures var f := Resumes(ident, FastPolicy(ident, prefer6), s, runs);
            var whole := Rest(ident, prefer6, t, answer, s.observations);
            && s.observations <= f.observations
            && Experiments(f.observations[|s.observations|..]) <= whole
            && AnsweredBy(answer, |s.observations|, f.observations)
            && (Experiments(f.observations[|s.observations|..]) == whole <==>
                FastPolicy(ident, prefer6).done(f))
  {
    hide Rest, Plan, Resumes, Make, DnsSpec, Fresh, AnsweredBy, Admissible;
    var pol := FastPolicy(ident, prefer6);
    var f := Resumes(ident, pol, s, runs);
    FastResumesKeep(ident, prefer6, t, known, s.observations, s, runs);
    NothingAnswered(answer, s.observations);
    ConsistentResumes(ident, pol, answer, |s.observations|, s, runs);
    RestIsConserved(ident, prefer6, t, answer, s.observations, f.observations);
    RestBounds(ident, prefer6, t, answer, f.observations);
  }

  lemma NothingAnswered(answer: Answer, obs: seq<Observation>)
    ensures AnsweredBy(answer, |obs|, obs)
  {
  }

  lemma SameAnswersSameRecord(answer: Answer, base: seq<Observation>, a: seq<Observation>, b: seq<Observation>)
    requires base <= a && base <= b
    requires AnsweredBy(answer, |base|, a) && AnsweredBy(answer, |base|, b)
    requires Experiments(a[|base|..]) == Experiments(b[|base|..])
    ensures a == b
  {
    hide Told;
    var n := |base|;
    assert |a[n..]| == |Experiments(a[n..])| == |Experiments(b[n..])| == |b[n..]|;
    forall j | 0 <= j < |a| ensures a[j] == b[j] {
      if j < n {
        assert a[j] == base[j] == b[j];
      } else {
        assert a[j].experiment == Experiments(a[n..])[j - n] == Experiments(b[n..])[j - n] == b[j].experiment;
      }
    }
  }

  /** Resume equivalence: whatever the budgets and stop points of the earlier runs, a chain of
      resumes that reaches the end of the tree records exactly what one uninterrupted run
      records. */
  lemma ResumeEquivalence(ident: Ident, prefer6: bool, t: Target, known: set<Spec>, answer: Answer,
                          s: Survey, runs: seq<Attempt>, others: seq<Attempt>)
    requires Startable(ident, prefer6, t, known, s)
    requires forall a :: a in runs + others ==> Consistent(answer, a)
    requires var pol := FastPolicy(ident, prefer6);
             pol.done(Resumes(ident, pol, s, runs)) && pol.done(Resumes(ident, pol, s, others))
    ensures var pol := FastPolicy(ident, prefer6);
            Resumes(ident, pol, s, runs).observations == Resumes(ident, pol, s, others).observations
  {
    hide Rest, Plan, Resumes, FastPolicy, Startable, Consistent;
    var pol := FastPolicy(ident, prefer6);
    ResumedIsPrefix(ident, prefer6, t, known, answer, s, runs);
    ResumedIsPrefix(ident, prefer6, t, known, answer, s, others);
    SameAnswersSameRecord(answer, s.observations, Resumes(ident, pol, s, runs).observations,
                          Resumes(ident, pol, s, others).observations);
  }
}
