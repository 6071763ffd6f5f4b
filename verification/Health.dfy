/** What path_healthy does and does not say about the observations. */
module Health {
  import opened Model
  import opened Selectors
  import opened Runs
  import opened Fast
  import opened FastRuns
  import opened FastSequence
  import opened FastCausal
  import opened FastOrder
  import opened Infer
  import opened InferFacts

  ghost predicate Healthy(obs: seq<Observation>) {
    exists f :: f in InferFrom(obs) && f.kind == PathHealthy
  }

  predicate Fine(o: Option<Observation>) { o.Some? ==> o.value.status == Pass }

  predicate NotSkipped(o: Option<Observation>) { o.Some? ==> o.value.status != Skipped }

  /** Every observation that inference consults passed. */
  ghost predicate ChosenPass(obs: seq<Observation>) {
    && Fine(Pick(obs, LayerDNS, NoFamily))
    && (forall l, f :: l in [LayerTCP, LayerTLS, LayerHTTP] && f in [IPv4, IPv6] ==> Fine(Pick(obs, l, f)))
    && Fine(Pick(obs, LayerUDP, NoFamily)) && Fine(Pick(obs, LayerQUIC, NoFamily))
  }

  /** On any record, path_healthy means that every consulted observation passed exactly when the
      consulted TCP and HTTP observations passed, TLS passed where TCP was not probed, and none
      of the TLS, UDP and QUIC observations was skipped. */
  lemma HealthyChosenPassIff(obs: seq<Observation>)
    requires Healthy(obs)
    ensures ChosenPass(obs) <==>
            && (forall f :: f in [IPv4, IPv6] ==>
                  && Fine(Pick(obs, LayerTCP, f)) && Fine(Pick(obs, LayerHTTP, f))
                  && NotSkipped(Pick(obs, LayerTLS, f))
                  && (Pick(obs, LayerTCP, f).None? ==> Fine(Pick(obs, LayerTLS, f))))
            && NotSkipped(Pick(obs, LayerUDP, NoFamily)) && NotSkipped(Pick(obs, LayerQUIC, NoFamily))
  {
    hide InferFrom, Pick, PassingLines, TcpPassAny, Rejected, Partial;
    HealthyWhen(obs);
  }

  // ---------------------------------------------------------------------------------------
  // On Fast surveys

  /** The only match is the chosen one. */
  lemma PickSole(obs: seq<Observation>, layer: Layer, family: Family, i: nat)
    requires i < |obs| && Matches(obs[i], layer, family)
    requires forall j :: 0 <= j < |obs| && Matches(obs[j], layer, family) ==> j == i
    ensures Pick(obs, layer, family) == Some(obs[i])
  {
    hide Pick, Latest, LatestCanonical, IsCanonical;
    PickMeaning(obs, layer, family);
    LatestMeaning(obs, layer, family);
  }

  lemma FastPicked(ident: Ident, prefer6: bool, t: Target, obs: seq<Observation>, layer: Layer, family: Family, i: nat)
    requires Planned(ident, prefer6, t, 0, obs) && Lookup(layer, family)
    requires i < |obs| && Matches(obs[i], layer, family)
    ensures Pick(obs, layer, family) == Some(obs[i])
  {
    hide Planned, Pick;
    forall j | 0 <= j < |obs| && Matches(obs[j], layer, family) ensures j == i {
      if i < j {
        MatchesOnce(ident, prefer6, t, obs, layer, family, i, j);
      } else if j < i {
        MatchesOnce(ident, prefer6, t, obs, layer, family, j, i);
      }
    }
    PickSole(obs, layer, family, i);
  }

  lemma FastTlsHasTcp(ident: Ident, prefer6: bool, t: Target, obs: seq<Observation>, i: nat)
    requires Planned(ident, prefer6, t, 0, obs) && i < |obs| && obs[i].layer == LayerTLS
    ensures var f := obs[i].experiment.spec.family;
            (f == IPv4 || f == IPv6) && Passes(Pick(obs, LayerTCP, f))
  {
    hide Planned, FastSpecs, Pick, IsCanonical;
    PlannedIsCaused(ident, prefer6, t, 0, obs, i);
    PlannedSpec(ident, prefer6, t, 0, obs, i);
    FastFamilies(t, obs[i].experiment.spec);
    var f := obs[i].experiment.spec.family;
    var j :| 0 <= j < |obs[..i]| && Matches(obs[..i][j], LayerTCP, f) && obs[..i][j].status == Pass;
    assert obs[..i][j] == obs[j];
    FastPicked(ident, prefer6, t, obs, LayerTCP, f, j);
  }

  lemma FastFamilies(t: Target, s: Spec)
    requires s in FastSpecs(t)
    ensures s.layer == LayerTLS || s.layer == LayerTCP ==> s.family == IPv4 || s.family == IPv6
    ensures s.layer in [LayerDNS, LayerTCP, LayerTLS, LayerHTTP, LayerQUIC]
  {
    hide DnsSpec, TcpSpec, TlsSpec, HttpSpec, QuicSpec;
  }

  /** On every record of a fresh Fast survey with path_healthy, everything recorded passed exactly
      when every TCP and every HTTP observation passed and nothing was skipped. */
  lemma HealthyFastPassesIff(ident: Ident, prefer6: bool, t: Target, obs: seq<Observation>)
    requires Planned(ident, prefer6, t, 0, obs) && Healthy(obs)
    ensures (forall o :: o in obs ==> o.status == Pass) <==>
            forall o :: o in obs ==>
              o.status != Skipped && (o.layer == LayerTCP || o.layer == LayerHTTP ==> o.status == Pass)
  {
    hide Planned, Healthy;
    if forall o :: o in obs ==> o.status != Skipped && (o.layer == LayerTCP || o.layer == LayerHTTP ==> o.status == Pass) {
      forall o | o in obs ensures o.status == Pass {
        var i :| 0 <= i < |obs| && obs[i] == o;
        if o.layer != LayerTCP && o.layer != LayerHTTP {
          HealthyFastAt(ident, prefer6, t, obs, i);
        }
      }
    }
  }

  lemma HealthyFastAt(ident: Ident, prefer6: bool, t: Target, obs: seq<Observation>, i: nat)
    requires Planned(ident, prefer6, t, 0, obs) && Healthy(obs) && i < |obs|
    ensures var o := obs[i];
            o.layer == LayerTCP || o.layer == LayerHTTP || o.status == Pass || o.status == Skipped
  {
    hide InferFrom, Pick, PassingLines, TcpPassAny, Rejected, Partial, Planned, FastSpecs, IsCanonical;
    var o := obs[i];
    HealthyWhen(obs);
    PlannedSpec(ident, prefer6, t, 0, obs, i);
    FastFamilies(t, o.experiment.spec);
    if o.layer == LayerTLS {
      FastTlsHasTcp(ident, prefer6, t, obs, i);
      FastPicked(ident, prefer6, t, obs, LayerTLS, o.experiment.spec.family, i);
    } else if o.layer == LayerDNS || o.layer == LayerQUIC {
      FastPicked(ident, prefer6, t, obs, o.layer, NoFamily, i);
    }
  }

  // ---------------------------------------------------------------------------------------
  // Two runs that end with path_healthy although something did not pass

  /** A network that resolves the name to both families and answers TCP and HTTP as given. */
  function Answering(tcp4: Status, tcp6: Status, http: Status): Answer {
    (e: Experiment) =>
      Observation(e, e.spec.layer,
                  match e.spec.layer
                  case LayerTCP => if e.spec.family == IPv4 then tcp4 else tcp6
                  case LayerHTTP => http
                  case _ => Pass,
                  0,
                  [Evidence(KindDNSAnswer, map["v4" := Texts(["192.0.2.1"]), "v6" := Texts(["2001:db8::1"])])],
                  [], "")
  }

  function Undisturbed16(answer: Answer): Attempt {
    Attempt(16, (at: nat, e: Experiment) => answer(e), (k: nat) => false)
  }

  function DualStackSpecs(t: Target, f: Family): seq<Spec> {
    [DnsSpec(t, ResolverSystem), TcpSpec(t, IPv4), TcpSpec(t, IPv6), HttpSpec(t, f, "")]
  }

  function Told4(ident: Ident, answer: Answer, specs: seq<Spec>): seq<Observation> {
    seq(|specs|, i requires 0 <= i < |specs| => Told(answer, Make(ident, specs[i])))
  }

  /** What a Fast run records on such a network for a plain HTTP target. */
  lemma DualStackRun(ident: Ident, t: Target, tcp4: Status, tcp6: Status, http: Status)
    requires NoCollision(ident, FastSpecs(t)) && !t.IsHTTPS()
    requires tcp4 == Pass || tcp6 == Pass
    ensures var answer := Answering(tcp4, tcp6, http);
            Run(ident, FastPolicy(ident, false), Survey(Some(t), 0, [], []), Undisturbed16(answer)).final.observations
            == Told4(ident, answer, DualStackSpecs(t, if tcp4 == Pass then IPv4 else IPv6))
  {
    hide FastPolicy, FastSpecs, Make, Run, Startable, NoCollision, DualStackSpecs, Answering, Told4, Rest, Resumes,
      AnsweredBy, Experiments;
    var answer := Answering(tcp4, tcp6, http);
    var a := Undisturbed16(answer);
    var s := Survey(Some(t), 0, [], []);
    var pol := FastPolicy(ident, false);
    FreshIsStartable(ident, false, t);
    FastRunIsExact(ident, false, t, FastSpecs(t), answer, s, a);
    assert [a][1..] == [];
    ResumedIsPrefix(ident, false, t, FastSpecs(t), answer, s, [a]);
    var f := Run(ident, pol, s, a).final;
    assert Resumes(ident, pol, s, [a]) == f by { OneRun(ident, pol, s, a); }
    DualStackRest(ident, t, tcp4, tcp6, http);
    assert |DualStackSpecs(t, if tcp4 == Pass then IPv4 else IPv6)| == 4 by { FourSpecs(t, if tcp4 == Pass then IPv4 else IPv6); }
    assert f.observations[0..] == f.observations;
    FromExperiments(ident, answer, f.observations, DualStackSpecs(t, if tcp4 == Pass then IPv4 else IPv6));
  }

  lemma FourSpecs(t: Target, f: Family)
    ensures |DualStackSpecs(t, f)| == 4
  {
  }

  lemma OneRun(ident: Ident, pol: Policy, s: Survey, a: Attempt)
    ensures Resumes(ident, pol, s, [a]) == Run(ident, pol, s, a).final
  {
    hide Run;
    assert [a][1..] == [];
  }

  lemma FromExperiments(ident: Ident, answer: Answer, obs: seq<Observation>, specs: seq<Spec>)
    requires AnsweredBy(answer, 0, obs)
    requires Experiments(obs) == seq(|specs|, i requires 0 <= i < |specs| => Make(ident, specs[i]))
    ensures obs == Told4(ident, answer, specs)
  {
    hide Make, Told;
    assert |obs| == |Experiments(obs)| == |specs|;
    forall i | 0 <= i < |obs| ensures obs[i] == Told4(ident, answer, specs)[i] {
      assert Experiments(obs)[i] == Make(ident, specs[i]);
    }
  }

  lemma DualStackRest(ident: Ident, t: Target, tcp4: Status, tcp6: Status, http: Status)
    requires !t.IsHTTPS() && (tcp4 == Pass || tcp6 == Pass)
    ensures var specs := DualStackSpecs(t, if tcp4 == Pass then IPv4 else IPv6);
            Rest(ident, false, t, Answering(tcp4, tcp6, http), [])
            == seq(|specs|, i requires 0 <= i < |specs| => Make(ident, specs[i]))
  {
    hide Make, RestTwo, TreeRest, DnsSpec, TcpSpec, HttpSpec, TlsSpec, QuicSpec, Families, Answering;
    var answer := Answering(tcp4, tcp6, http);
    var e := Make(ident, DnsSpec(t, ResolverSystem));
    var m, n := MenuOf(ident, t, IPv4), MenuOf(ident, t, IPv6);
    var none := Slots(None, None, None);
    DnsPasses(ident, t, tcp4, tcp6, http);
    MadeKeys(ident, t, IPv4);
    MadeKeys(ident, t, IPv6);
    assert TreeRest(ident, t, answer, [], [IPv4, IPv6]) == RestTwo(false, answer, m, n, none, none, None) by {
      TreeRestOfNothing(ident, t, answer);
    }
    DualStackTree(tcp4, tcp6, http, m, n);
    assert Rest(ident, false, t, answer, []) == [e] + TreeRest(ident, t, answer, [], [IPv4, IPv6]);
  }

  lemma DnsPasses(ident: Ident, t: Target, tcp4: Status, tcp6: Status, http: Status)
    ensures var dns := Told(Answering(tcp4, tcp6, http), Make(ident, DnsSpec(t, ResolverSystem)));
            dns.status == Pass && Families(dns, false) == [IPv4, IPv6]
  {
    hide Families;
    DnsIsDns(ident, t);
    BothFamilies(Told(Answering(tcp4, tcp6, http), Make(ident, DnsSpec(t, ResolverSystem))));
  }

  lemma TreeRestOfNothing(ident: Ident, t: Target, answer: Answer)
    requires !t.IsHTTPS()
    ensures var none := Slots(None, None, None);
            TreeRest(ident, t, answer, [], [IPv4, IPv6])
            == RestTwo(false, answer, MenuOf(ident, t, IPv4), MenuOf(ident, t, IPv6), none, none, None)
  {
    hide RestTwo, MenuOf;
  }

  lemma DualStackTree(tcp4: Status, tcp6: Status, http: Status, m: Menu, n: Menu)
    requires Keyed(m, IPv4) && Keyed(n, IPv6) && (tcp4 == Pass || tcp6 == Pass)
    ensures var none := Slots(None, None, None);
            RestTwo(false, Answering(tcp4, tcp6, http), m, n, none, none, None)
            == [m.tcp, n.tcp, if tcp4 == Pass then m.http else n.http]
  {
  }

  lemma BothFamilies(dns: Observation)
    requires dns.evidence == [Evidence(KindDNSAnswer, map["v4" := Texts(["192.0.2.1"]), "v6" := Texts(["2001:db8::1"])])]
    ensures Families(dns, false) == [IPv4, IPv6]
  {
    assert [dns.evidence[0]][1..] == [];
  }

  /** A record of DNS, TCP on both families and HTTP on one. */
  ghost predicate IsDualStack(obs: seq<Observation>, f: Family) {
    && |obs| == 4 && (f == IPv4 || f == IPv6)
    && obs[0].layer == LayerDNS
    && obs[1].layer == LayerTCP && obs[1].experiment.spec.family == IPv4
    && obs[2].layer == LayerTCP && obs[2].experiment.spec.family == IPv6
    && obs[3].layer == LayerHTTP && obs[3].experiment.spec.family == f
    && forall i :: 0 <= i < 4 ==> obs[i].addresses == [] && !Has(obs[i], KindHTTPStatus)
  }

  lemma PickNothing(obs: seq<Observation>, layer: Layer, family: Family)
    requires !HasKey(obs, layer, family)
    ensures Pick(obs, layer, family).None?
  {
    hide Pick;
    PickIsThere(obs, layer, family);
  }

  lemma DualStackIsHealthy(obs: seq<Observation>, f: Family)
    requires IsDualStack(obs, f) && obs[0].status == Pass
    requires obs[1].status == Pass || obs[2].status == Pass
    requires !PairFails(Some(obs[1]), Some(obs[2]))
    requires |PassingLines(obs)| >= 3
    ensures InferFrom(obs) == [Finding(PathHealthy, Confirmed, PassingLines(obs))]
  {
    hide InferFrom, Pick, PassingLines;
    PickSole(obs, LayerDNS, NoFamily, 0);
    PickSole(obs, LayerTCP, IPv4, 1);
    PickSole(obs, LayerTCP, IPv6, 2);
    PickSole(obs, LayerHTTP, f, 3);
    PickNothing(obs, LayerHTTP, if f == IPv4 then IPv6 else IPv4);
    forall g ensures Pick(obs, LayerTLS, g).None? && Pick(obs, LayerUDP, g).None? && Pick(obs, LayerQUIC, g).None? {
      PickNothing(obs, LayerTLS, g);
      PickNothing(obs, LayerUDP, g);
      PickNothing(obs, LayerQUIC, g);
    }
    HealthyWhen(obs);
    var found :| found in InferFrom(obs) && found.kind == PathHealthy;
    LoneFindings(obs, found);
  }

  lemma ThreeLines(obs: seq<Observation>, i: nat, j: nat, k: nat)
    requires i < |obs| && j < |obs| && k < |obs| && i != j && i != k && j != k
    requires obs[i].status == Pass && obs[j].status == Pass && obs[k].status == Pass
    ensures |PassingLines(obs)| >= 3
  {
    hide PassingLines;
    var at := PassingLinesMeaning(obs);
    assert i in at && j in at && k in at;
    assert |{i, j, k}| == 3;
    MembersFit({i, j, k}, at);
  }

  lemma {:induction false} MembersFit(s: set<nat>, at: seq<nat>)
    requires forall i :: i in s ==> i in at
    ensures |s| <= |at|
    decreases |at|
  {
    if |at| > 0 {
      var n := |at| - 1;
      assert at == at[..n] + [at[n]];
      MembersFit(s - {at[n]}, at[..n]);
      assert s <= (s - {at[n]}) + {at[n]};
    } else {
      assert s == {};
    }
  }

  lemma Told4IsDualStack(ident: Ident, t: Target, tcp4: Status, tcp6: Status, http: Status, f: Family)
    requires (f == IPv4 || f == IPv6) && tcp4 != NoStatus && tcp6 != NoStatus && http != NoStatus
    ensures var obs := Told4(ident, Answering(tcp4, tcp6, http), DualStackSpecs(t, f));
            IsDualStack(obs, f) && obs[0].status == Pass && obs[1].status == tcp4
            && obs[2].status == tcp6 && obs[3].status == http
  {
    hide Make, FirstEvidence, DnsSpec, TcpSpec, HttpSpec, Told, Answering;
    var specs := DualStackSpecs(t, f);
    forall i | 0 <= i < 4 ensures Make(ident, specs[i]).spec == specs[i] { MadeSpec(ident, specs[i]); }
    var obs := Told4(ident, Answering(tcp4, tcp6, http), specs);
    forall i | 0 <= i < 4
      ensures obs[i].experiment.spec == specs[i] && obs[i].layer == specs[i].layer && obs[i].addresses == []
      ensures !Has(obs[i], KindHTTPStatus)
      ensures obs[i].status == match specs[i].layer
              case LayerTCP => if specs[i].family == IPv4 then tcp4 else tcp6
              case LayerHTTP => http
              case _ => Pass
    {
      AnswerIs(tcp4, tcp6, http, Make(ident, specs[i]));
      NoHTTPStatus(obs[i].evidence);
    }
  }

  lemma AnswerIs(tcp4: Status, tcp6: Status, http: Status, e: Experiment)
    requires tcp4 != NoStatus && tcp6 != NoStatus && http != NoStatus
    ensures var o := Told(Answering(tcp4, tcp6, http), e);
            && o.experiment == e && o.layer == e.spec.layer && o.addresses == []
            && |o.evidence| == 1 && o.evidence[0].kind == KindDNSAnswer
            && o.status == match e.spec.layer
                           case LayerTCP => if e.spec.family == IPv4 then tcp4 else tcp6
                           case LayerHTTP => http
                           case _ => Pass
  {
  }

  lemma NoHTTPStatus(evidence: seq<Evidence>)
    requires |evidence| == 1 && evidence[0].kind == KindDNSAnswer
    ensures FirstEvidence(evidence, KindHTTPStatus).None?
  {
    assert evidence[1..] == [];
  }

  /** Such a run with three passes and no failing IPv6 beside a passing IPv4 is healthy. */
  lemma DualStackEnds(ident: Ident, t: Target, tcp4: Status, tcp6: Status, http: Status)
    requires NoCollision(ident, FastSpecs(t)) && !t.IsHTTPS()
    requires tcp4 != NoStatus && tcp6 != NoStatus && http != NoStatus
    requires if tcp4 == Pass then tcp6 == Pass else tcp6 == Pass && http == Pass
    ensures var obs := Run(ident, FastPolicy(ident, false), Survey(Some(t), 0, [], []),
                           Undisturbed16(Answering(tcp4, tcp6, http))).final.observations;
            && |obs| == 4 && obs[1].layer == LayerTCP && obs[1].status == tcp4
            && obs[3].layer == LayerHTTP && obs[3].status == http
            && InferFrom(obs) == [Finding(PathHealthy, Confirmed, PassingLines(obs))]
  {
    hide Run, FastPolicy, Told4, Answering, PassingLines, FastSpecs, NoCollision, InferFrom, Undisturbed16, DualStackSpecs, Has;
    var f := if tcp4 == Pass then IPv4 else IPv6;
    DualStackRun(ident, t, tcp4, tcp6, http);
    var obs := Told4(ident, Answering(tcp4, tcp6, http), DualStackSpecs(t, f));
    Told4IsDualStack(ident, t, tcp4, tcp6, http, f);
    ThreeLines(obs, 0, 2, if tcp4 == Pass then 1 else 3);
    DualStackIsHealthy(obs, f);
  }

  /** A Fast run against a dual-stack plain HTTP host that refuses IPv4 ends with path_healthy as
      its only finding, although TCP on IPv4 failed. */
  lemma RefusedFamilyIsHealthy(ident: Ident, t: Target)
    requires NoCollision(ident, FastSpecs(t)) && !t.IsHTTPS()
    ensures var obs := Run(ident, FastPolicy(ident, false), Survey(Some(t), 0, [], []),
                           Undisturbed16(Answering(Fail, Pass, Pass))).final.observations;
            && |obs| == 4 && obs[1].layer == LayerTCP && obs[1].status == Fail
            && InferFrom(obs) == [Finding(PathHealthy, Confirmed, PassingLines(obs))]
  {
    hide Run, FastPolicy, Answering, PassingLines, FastSpecs, NoCollision, InferFrom, Undisturbed16;
    DualStackEnds(ident, t, Fail, Pass, Pass);
  }

  /** A Fast run whose only HTTP request times out ends with path_healthy too. */
  lemma TimeoutIsHealthy(ident: Ident, t: Target)
    requires NoCollision(ident, FastSpecs(t)) && !t.IsHTTPS()
    ensures var obs := Run(ident, FastPolicy(ident, false), Survey(Some(t), 0, [], []),
                           Undisturbed16(Answering(Pass, Pass, Timeout))).final.observations;
            && |obs| == 4 && obs[3].layer == LayerHTTP && obs[3].status == Timeout
            && InferFrom(obs) == [Finding(PathHealthy, Confirmed, PassingLines(obs))]
  {
    hide Run, FastPolicy, Answering, PassingLines, FastSpecs, NoCollision, InferFrom, Undisturbed16;
    DualStackEnds(ident, t, Pass, Pass, Timeout);
  }
}
