/** Two chains of Adaptive runs against one network that are both done and disagree: a budget
    that separates a pair of follow-ups changes what is measured. */
module AdaptiveSplit {
  import opened Model
  import opened Selectors
  import opened Dedupe
  import opened Runs
  import opened Text
  import opened Fast
  import opened FastRuns
  import opened FastSequence
  import opened Adaptive
  import opened AdaptiveRuns
  import opened AdaptiveResume
  import opened Canonical
  import Sorting

  /** An IPv4-only network on which TLS works with a single ALPN and in no other variant. */
  function OnlyAlpn(): Answer {
    (e: Experiment) =>
      Observation(e, e.spec.layer, if e.spec.layer == LayerTLS && e.spec.alpn == "" then Fail else Pass, 0, [], [], "")
  }

  function Seen(ident: Ident, s: Spec): Observation { Told(OnlyAlpn(), Make(ident, s)) }

  function Alpn(t: Target): Spec { TlsSpec(t, IPv4, H1, "") }

  function NoSni(t: Target): Spec { TlsSpec(t, IPv4, "", SNI_NONE) }

  lemma SeenIs(ident: Ident, s: Spec)
    requires Defaults(s) == s
    ensures var o := Seen(ident, s);
            && o.experiment == Make(ident, s) && o.experiment.spec == s && o.experiment.id == ident(s)
            && o.layer == s.layer && o.evidence == []
            && o.status == if s.layer == LayerTLS && s.alpn == "" then Fail else Pass
  {
    hide Make;
    MadeSpec(ident, s);
  }

  // ---------------------------------------------------------------------------------------
  // What the policy reads from such a record

  /** The record resolves to IPv4 and holds these observations of it. */
  ghost predicate Reads(obs: seq<Observation>, s: Slots, quic: Option<Observation>) {
    && Passes(Latest(obs, LayerDNS, NoFamily)) && Families(Latest(obs, LayerDNS, NoFamily).value, false) == [IPv4]
    && SlotsOf(obs, IPv4) == s && Latest(obs, LayerQUIC, IPv4) == quic
  }

  lemma ReadsMore(obs: seq<Observation>, s: Slots, quic: Option<Observation>, o: Observation)
    requires Reads(obs, s, quic) && o.layer != LayerDNS
    ensures Reads(obs + [o], Write(s, o, IPv4), WriteQuic(quic, o, IPv4))
  {
    hide Latest, Families, SlotsOf;
    LatestAppend(obs, o, LayerDNS, NoFamily);
    SlotsAppend(obs, o, IPv4);
  }

  lemma PlanReads(ident: Ident, t: Target, obs: seq<Observation>, s: Slots, quic: Option<Observation>)
    requires Reads(obs, s, quic)
    ensures Plan(ident, false, t, obs) == NextOne(t.IsHTTPS(), MenuOf(ident, t, IPv4), s, quic)
  {
    hide Latest, Families, Tree, MenuOf, NextOne;
    OneReadsSlots(ident, t, obs, IPv4);
  }

  /** With TCP and QUIC passing, the candidates are about TLS and HTTP alone. */
  lemma CandidatesRead(ident: Ident, t: Target, obs: seq<Observation>, s: Slots, quic: Option<Observation>)
    requires t.IsHTTPS() && Reads(obs, s, quic) && Passes(s.tcp) && Passes(quic)
    ensures Candidates(ident, false, t, obs) ==
            if Fails(s.tls) then Keep(ident, obs, NoSni(t), SNIFiltering) + Keep(ident, obs, Alpn(t), ALPNInterference)
            else if Passes(s.tls) && Fails(s.http) then Keep(ident, obs, HttpSpec(t, IPv4, H1), H2Broken)
            else []
  {
    hide Latest, Families, Keep;
    assert [IPv4][1..] == [];
    assert TlsParts(ident, t, obs, [IPv4], [IPv4]) == TlsPart(ident, t, obs, [IPv4], IPv4);
    assert HttpParts(ident, t, obs, [IPv4]) == HttpPart(ident, t, obs, IPv4);
  }

  // ---------------------------------------------------------------------------------------
  // The pair: the ALPN variant is ranked first

  lemma AlpnSortsFirst(t: Target)
    ensures Less(CanonicalForm(Alpn(t)), CanonicalForm(NoSni(t)))
  {
    hide TargetText, Itoa, LayerName, FamilyName, TransportName, ResolverName, Less;
    var x, y := ["v1"] + Fields(Alpn(t)), ["v1"] + Fields(NoSni(t));
    JoinIsTail(x);
    JoinIsTail(y);
    SameTail(x, y, 8);
    var head := Tail(x, 8) + "|";
    var a, b := H1 + "|" + "" + "|" + Itoa(0), "" + "|" + SNI_NONE + "|" + Itoa(0);
    VariantTail(x, 8);
    VariantTail(y, 8);
    assert Tail(x, 11) == head + a && Tail(y, 11) == head + b;
    PipeIsLate(a, b);
    LessAfter(head, a, b);
  }

  lemma PipeIsLate(a: string, b: string)
    requires |a| > 0 && |b| > 0 && a[0] == 'h' && b[0] == '|'
    ensures Less(a, b)
  {
  }

  lemma VariantTail(x: seq<string>, n: nat)
    requires n == 8 && |x| == 11
    ensures Tail(x, 11) == Tail(x, 8) + "|" + (x[8] + "|" + x[9] + "|" + x[10])
  {
    assert Tail(x, 9) == Tail(x, 8) + "|" + x[8];
    assert Tail(x, 10) == Tail(x, 9) + "|" + x[9];
    assert Tail(x, 11) == Tail(x, 10) + "|" + x[10];
  }

  lemma PairRanked(ident: Ident, t: Target, obs: seq<Observation>)
    requires !HasExperiment(obs, ident(Alpn(t))) && !HasExperiment(obs, ident(NoSni(t)))
    ensures var cs := Keep(ident, obs, NoSni(t), SNIFiltering) + Keep(ident, obs, Alpn(t), ALPNInterference);
            ExpsOf(Ranked(obs, cs)) == [Make(ident, Alpn(t)), Make(ident, NoSni(t))]
  {
    hide CanonicalForm, HasExperiment, Alpn, NoSni;
    assert Defaults(Alpn(t)) == Alpn(t) && Alpn(t).layer == LayerTLS && Defaults(NoSni(t)) == NoSni(t) && NoSni(t).layer == LayerTLS by {
      VariantShapes(t);
    }
    MadeSpec(ident, Alpn(t));
    MadeSpec(ident, NoSni(t));
    AlpnSortsFirst(t);
    var x, y := Scored(Make(ident, NoSni(t)), 8), Scored(Make(ident, Alpn(t)), 8);
    var cs := Keep(ident, obs, NoSni(t), SNIFiltering) + Keep(ident, obs, Alpn(t), ALPNInterference);
    assert |cs| == 2;
    assert ScoreAll(obs, cs) == [x, y];
    assert [x, y][1..] == [y] && [y][1..] == [];
    assert Sorting.Sort(Before, [y]) == [y];
    assert Sorting.Sort(Before, [x, y]) == Sorting.Insert(Before, x, [y]) == [y, x];
  }

  lemma VariantShapes(t: Target)
    ensures Defaults(Alpn(t)) == Alpn(t) && Alpn(t).layer == LayerTLS && Alpn(t).family == IPv4 && Alpn(t).alpn == H1
    ensures Defaults(NoSni(t)) == NoSni(t) && NoSni(t).layer == LayerTLS && NoSni(t).family == IPv4 && NoSni(t).alpn == ""
  {
  }

  // ---------------------------------------------------------------------------------------
  // Rounds

  function Made(ident: Ident, specs: seq<Spec>): seq<Experiment> {
    seq(|specs|, i requires 0 <= i < |specs| => Make(ident, specs[i]))
  }

  function SeenAll(ident: Ident, specs: seq<Spec>): seq<Observation> {
    seq(|specs|, i requires 0 <= i < |specs| => Seen(ident, specs[i]))
  }

  /** The specs are proper, and their IDs new and different. */
  ghost predicate NewSpecs(ident: Ident, obs: seq<Observation>, specs: seq<Spec>) {
    && (forall i :: 0 <= i < |specs| ==> Defaults(specs[i]) == specs[i] && !HasExperiment(obs, ident(specs[i])))
    && forall i, j :: 0 <= i < j < |specs| ==> ident(specs[i]) != ident(specs[j])
  }

  lemma FreshMade(ident: Ident, obs: seq<Observation>, specs: seq<Spec>, budget: nat)
    requires NewSpecs(ident, obs, specs)
    ensures Fresh(ident, obs, {}, Made(ident, specs), budget)
            == Made(ident, specs)[..if budget < |specs| then budget else |specs|]
  {
    hide Make, Normalize, HasExperiment, Defaults;
    var exps := Made(ident, specs);
    forall i | 0 <= i < |specs| ensures exps[i].id == ident(specs[i]) && Normalize(ident, exps[i]) == exps[i] {
      MadeSpec(ident, specs[i]);
    }
    FreshKeeps(ident, obs, {}, exps, budget);
  }

  function Never(): nat -> bool { (k: nat) => false }

  /** One round that proposes what these specs make. */
  lemma RoundOf(ident: Ident, s: Survey, budget: nat, k: nat, specs: seq<Spec>) returns (n: Survey)
    requires k < MAX_ROUNDS && 0 < |specs| <= budget
    requires Propose(ident, false, s, budget) == Made(ident, specs)
    ensures n.target == s.target && n.observations == s.observations + SeenAll(ident, specs)
    ensures Rounds(ident, AdaptivePolicy(ident, false), Network(OnlyAlpn()), Never(), s, budget, k)
            == Rounds(ident, AdaptivePolicy(ident, false), Network(OnlyAlpn()), Never(), n, budget - |specs|, k + 1)
  {
    hide Fresh, Make, PlanOf, CandidatesOf, Propose;
    RunnerKeepsProposal(ident, false, s, budget);
    if PlanOf(ident, false, s) == [] && CandidatesOf(ident, false, s) == [] { NothingToPropose(ident, false, s, budget); }
    n := Step(Network(OnlyAlpn()), s, Made(ident, specs));
    assert n.observations == s.observations + SeenAll(ident, specs);
  }

  lemma TreeProposal(ident: Ident, t: Target, s: Survey, budget: nat, specs: seq<Spec>)
    requires s.target == Some(t) && 0 < |specs| <= budget && NewSpecs(ident, s.observations, specs)
    requires Plan(ident, false, t, s.observations) == Made(ident, specs)
    ensures Propose(ident, false, s, budget) == Made(ident, specs)
  {
    hide Plan, Fresh, NewSpecs, CandidatesOf;
    FreshMade(ident, s.observations, specs, budget);
    assert Made(ident, specs)[..|specs|] == Made(ident, specs);
  }

  function Pair(t: Target, budget: nat): seq<Spec> { if budget == 1 then [Alpn(t)] else [Alpn(t), NoSni(t)] }

  lemma PairBest(ident: Ident, t: Target, obs: seq<Observation>, budget: nat)
    requires budget > 0 && NewSpecs(ident, obs, [Alpn(t), NoSni(t)])
    ensures var cs := Keep(ident, obs, NoSni(t), SNIFiltering) + Keep(ident, obs, Alpn(t), ALPNInterference);
            Best(Ranked(obs, cs), budget) == Made(ident, Pair(t, budget))
    ensures NewSpecs(ident, obs, Pair(t, budget)) && 0 < |Pair(t, budget)| <= budget
  {
    hide Alpn, NoSni, Keep, Ranked, Make, HasExperiment, Defaults;
    var specs := [Alpn(t), NoSni(t)];
    assert !HasExperiment(obs, ident(specs[0])) && !HasExperiment(obs, ident(specs[1]));
    PairRanked(ident, t, obs);
    var ranked := Ranked(obs, Keep(ident, obs, NoSni(t), SNIFiltering) + Keep(ident, obs, Alpn(t), ALPNInterference));
    var exps := ExpsOf(ranked);
    assert |ranked| == |exps| == 2 && ranked[0].exp == exps[0] && ranked[1].exp == exps[1];
    assert Best(ranked, budget) == exps[..if budget == 1 then 1 else 2];
  }

  lemma PairProposal(ident: Ident, t: Target, s: Survey, budget: nat, sl: Slots, quic: Option<Observation>)
    requires s.target == Some(t) && t.IsHTTPS() && budget > 0
    requires Reads(s.observations, sl, quic) && Passes(sl.tcp) && Fails(sl.tls) && Passes(quic)
    requires NewSpecs(ident, s.observations, [Alpn(t), NoSni(t)])
    ensures Propose(ident, false, s, budget) == Made(ident, Pair(t, budget))
  {
    hide Reads, Fresh, Alpn, NoSni, Keep, Ranked, Make, HasExperiment, CandidatesOf, NewSpecs, PlanOf, Best, Pair, Candidates;
    var obs := s.observations;
    NothingPlanned(ident, t, s, sl, quic, budget);
    CandidatesRead(ident, t, obs, sl, quic);
    CandidatesOfTarget(ident, t, s);
    PairBest(ident, t, obs, budget);
    FreshMade(ident, obs, Pair(t, budget), budget);
    assert Made(ident, Pair(t, budget))[..|Pair(t, budget)|] == Made(ident, Pair(t, budget));
  }

  lemma CandidatesOfTarget(ident: Ident, t: Target, s: Survey)
    requires s.target == Some(t)
    ensures CandidatesOf(ident, false, s) == Candidates(ident, false, t, s.observations)
  {
  }

  lemma NothingPlanned(ident: Ident, t: Target, s: Survey, sl: Slots, quic: Option<Observation>, budget: nat)
    requires s.target == Some(t) && t.IsHTTPS() && Reads(s.observations, sl, quic) && Passes(sl.tcp) && Fails(sl.tls) && Passes(quic)
    ensures PlanOf(ident, false, s) == [] && Fresh(ident, s.observations, {}, [], budget) == []
  {
    hide Reads, Plan;
    PlanReads(ident, t, s.observations, sl, quic);
  }

  // ---------------------------------------------------------------------------------------
  // The two chains

  /** What both chains start with, and the record they have before the follow-ups. */
  function Common(t: Target): seq<Spec> {
    [DnsSpec(t, ResolverSystem), TcpSpec(t, IPv4), QuicSpec(t, IPv4, ""), TlsSpec(t, IPv4, "", "")]
  }

  ghost predicate SeparateIds(ident: Ident, t: Target) {
    forall x, y :: x in Universe(t) && y in Universe(t) && ident(x) == ident(y) ==> x == y
  }

  lemma CommonSpecs(ident: Ident, t: Target)
    requires SeparateIds(ident, t)
    ensures var all := Common(t) + [Alpn(t), NoSni(t), HttpSpec(t, IPv4, "")];
            && (forall i :: 0 <= i < 7 ==> Defaults(all[i]) == all[i])
            && forall i, j :: 0 <= i < j < 7 ==> ident(all[i]) != ident(all[j])
  {
    hide SeparateIds, Universe, Defaults, DnsSpec, TcpSpec, QuicSpec, TlsSpec, HttpSpec;
    var all := Common(t) + [Alpn(t), NoSni(t), HttpSpec(t, IPv4, "")];
    forall i | 0 <= i < 7 ensures all[i] in Universe(t) { AllInUniverse(t, all[i]); }
    forall i, j | 0 <= i < j < 7 ensures all[i] != all[j] { AllDiffer(t); }
    forall i, j | 0 <= i < j < 7 ensures ident(all[i]) != ident(all[j]) {
      Apart(ident, t, all[i], all[j]);
    }
  }

  lemma Apart(ident: Ident, t: Target, x: Spec, y: Spec)
    requires SeparateIds(ident, t) && x in Universe(t) && y in Universe(t) && x != y
    ensures ident(x) != ident(y)
  {
    hide Universe;
  }

  lemma AllInUniverse(t: Target, s: Spec)
    requires s in Common(t) + [Alpn(t), NoSni(t), HttpSpec(t, IPv4, "")]
    ensures s in Universe(t)
  {
    hide DnsSpec, TcpSpec, QuicSpec, TlsSpec, HttpSpec;
  }

  lemma AllDiffer(t: Target)
    ensures var all := Common(t) + [Alpn(t), NoSni(t), HttpSpec(t, IPv4, "")];
            forall i, j :: 0 <= i < j < 7 ==> all[i] != all[j]
  {
    hide Defaults, DnsSpec, TcpSpec, QuicSpec, TlsSpec, HttpSpec;
    assert H1 != "" && SNI_NONE != "";
  }

  /** The records on the way, and what the policy reads from them. */
  lemma CommonReads(ident: Ident, t: Target)
    ensures var d, c, q, l := Seen(ident, DnsSpec(t, ResolverSystem)), Seen(ident, TcpSpec(t, IPv4)),
                              Seen(ident, QuicSpec(t, IPv4, "")), Seen(ident, TlsSpec(t, IPv4, "", ""));
            && Reads([d], Slots(None, None, None), None)
            && Reads([d, c, q], Slots(Some(c), None, None), Some(q))
            && Reads([d, c, q, l], Slots(Some(c), Some(l), None), Some(q))
            && c.status == Pass && q.status == Pass && l.status == Fail
            && l.layer == LayerTLS && l.experiment.spec.family == IPv4
  {
    hide Seen, Reads, DnsSpec, TcpSpec, QuicSpec, TlsSpec;
    var d, c, q, l := Seen(ident, DnsSpec(t, ResolverSystem)), Seen(ident, TcpSpec(t, IPv4)),
                      Seen(ident, QuicSpec(t, IPv4, "")), Seen(ident, TlsSpec(t, IPv4, "", ""));
    SeenIs(ident, DnsSpec(t, ResolverSystem));
    SeenIs(ident, TcpSpec(t, IPv4));
    SeenIs(ident, QuicSpec(t, IPv4, ""));
    SeenIs(ident, TlsSpec(t, IPv4, "", ""));
    DnsReads(d);
    ReadsMore([d], Slots(None, None, None), None, c);
    assert [d] + [c] == [d, c] && [d, c] + [q] == [d, c, q] && [d, c, q] + [l] == [d, c, q, l];
    ReadsMore([d, c], Slots(Some(c), None, None), None, q);
    ReadsMore([d, c, q], Slots(Some(c), None, None), Some(q), l);
  }

  lemma DnsReads(d: Observation)
    requires d.layer == LayerDNS && d.status == Pass && d.evidence == []
    ensures Reads([d], Slots(None, None, None), None)
  {
    hide Latest, Families;
    assert [d] == [] + [d];
    forall l, f ensures Latest([], l, f).None? { NothingLatest(l, f); }
    OnlyIPv4(d);
    LatestAppend([], d, LayerDNS, NoFamily);
    LatestAppend([], d, LayerTCP, IPv4);
    LatestAppend([], d, LayerTLS, IPv4);
    LatestAppend([], d, LayerHTTP, IPv4);
    LatestAppend([], d, LayerQUIC, IPv4);
  }

  lemma NothingLatest(layer: Layer, family: Family)
    ensures Latest([], layer, family).None?
  {
  }

  lemma OnlyIPv4(d: Observation)
    requires d.evidence == []
    ensures Families(d, false) == [IPv4]
  {
  }

  /** The first three rounds of either chain. */
  lemma CommonRounds(ident: Ident, t: Target, budget: nat) returns (s: Survey)
    requires t.IsHTTPS() && SeparateIds(ident, t) && budget >= 4
    ensures s.target == Some(t) && s.observations == SeenAll(ident, Common(t))
    ensures Rounds(ident, AdaptivePolicy(ident, false), Network(OnlyAlpn()), Never(), Survey(Some(t), 0, [], []), budget, 0)
            == Rounds(ident, AdaptivePolicy(ident, false), Network(OnlyAlpn()), Never(), s, budget - 4, 3)
  {
    hide Seen, Reads, DnsSpec, TcpSpec, QuicSpec, TlsSpec, Alpn, NoSni, AdaptivePolicy, Plan, Propose, SeparateIds, Make, HttpSpec,
      HasExperiment, Rounds, Defaults, Network, Never, NewSpecs;
    var x, y, z, w := DnsSpec(t, ResolverSystem), TcpSpec(t, IPv4), QuicSpec(t, IPv4, ""), TlsSpec(t, IPv4, "", "");
    var d, c, q, l := Seen(ident, x), Seen(ident, y), Seen(ident, z), Seen(ident, w);
    CommonReads(ident, t);
    CommonNew(ident, t);
    var s0 := Survey(Some(t), 0, [], []);
    CommonPlans(ident, t);
    assert Made(ident, [x]) == [Make(ident, x)] && Made(ident, [y, z]) == [Make(ident, y), Make(ident, z)]
        && Made(ident, [w]) == [Make(ident, w)];
    TreeProposal(ident, t, s0, budget, [x]);
    var s1 := RoundOf(ident, s0, budget, 0, [x]);
    assert s1.observations == [d];
    TreeProposal(ident, t, s1, budget - 1, [y, z]);
    var s2 := RoundOf(ident, s1, budget - 1, 1, [y, z]);
    assert s2.observations == [d, c, q];
    TreeProposal(ident, t, s2, budget - 3, [w]);
    s := RoundOf(ident, s2, budget - 3, 2, [w]);
    assert s.observations == [d, c, q, l] == SeenAll(ident, Common(t));
  }

  lemma CommonPlans(ident: Ident, t: Target)
    requires t.IsHTTPS()
    ensures var x, y, z, w := DnsSpec(t, ResolverSystem), TcpSpec(t, IPv4), QuicSpec(t, IPv4, ""), TlsSpec(t, IPv4, "", "");
            && Plan(ident, false, t, []) == [Make(ident, x)]
            && Plan(ident, false, t, [Seen(ident, x)]) == [Make(ident, y), Make(ident, z)]
            && Plan(ident, false, t, [Seen(ident, x), Seen(ident, y), Seen(ident, z)]) == [Make(ident, w)]
  {
    hide Seen, Reads, DnsSpec, TcpSpec, QuicSpec, TlsSpec, HttpSpec, Make;
    var x, y, z := DnsSpec(t, ResolverSystem), TcpSpec(t, IPv4), QuicSpec(t, IPv4, "");
    var d, c, q := Seen(ident, x), Seen(ident, y), Seen(ident, z);
    CommonReads(ident, t);
    PlanReads(ident, t, [d], Slots(None, None, None), None);
    PlanReads(ident, t, [d, c, q], Slots(Some(c), None, None), Some(q));
  }

  /** No experiment is recorded before its turn. */
  lemma CommonNew(ident: Ident, t: Target)
    requires SeparateIds(ident, t)
    ensures var x, y, z, w := DnsSpec(t, ResolverSystem), TcpSpec(t, IPv4), QuicSpec(t, IPv4, ""), TlsSpec(t, IPv4, "", "");
            var d, c, q, l := Seen(ident, x), Seen(ident, y), Seen(ident, z), Seen(ident, w);
            && NewSpecs(ident, [], [x]) && NewSpecs(ident, [d], [y, z]) && NewSpecs(ident, [d, c, q], [w])
            && NewSpecs(ident, [d, c, q, l], [Alpn(t), NoSni(t)])
            && NewSpecs(ident, [d, c, q, l, Seen(ident, Alpn(t))], [HttpSpec(t, IPv4, "")])
  {
    hide Seen, DnsSpec, TcpSpec, QuicSpec, TlsSpec, HttpSpec, Alpn, NoSni, SeparateIds, Defaults;
    CommonSpecs(ident, t);
    var all := Common(t) + [Alpn(t), NoSni(t), HttpSpec(t, IPv4, "")];
    forall i | 0 <= i < 7 ensures Seen(ident, all[i]).experiment.id == ident(all[i]) { SeenIs(ident, all[i]); }
    assert all[0] == DnsSpec(t, ResolverSystem) && all[1] == TcpSpec(t, IPv4) && all[2] == QuicSpec(t, IPv4, "")
        && all[3] == TlsSpec(t, IPv4, "", "") && all[4] == Alpn(t) && all[5] == NoSni(t) && all[6] == HttpSpec(t, IPv4, "");
  }

  lemma StopsHere(ident: Ident, s: Survey, budget: int, k: nat)
    requires k <= MAX_ROUNDS && (budget <= 0 || AdaptivePolicy(ident, false).done(s))
    ensures Rounds(ident, AdaptivePolicy(ident, false), Network(OnlyAlpn()), Never(), s, budget, k).final == s
  {
    hide AdaptivePolicy;
  }

  lemma DoneWhen(ident: Ident, t: Target, s: Survey, sl: Slots, quic: Option<Observation>)
    requires s.target == Some(t) && t.IsHTTPS() && Reads(s.observations, sl, quic) && Passes(sl.tcp) && Passes(quic)
    requires || (Fails(sl.tls) && HasExperiment(s.observations, ident(Alpn(t))) && HasExperiment(s.observations, ident(NoSni(t))))
             || (Passes(sl.tls) && Passes(sl.http))
    ensures AdaptivePolicy(ident, false).done(s)
  {
    hide Reads, Plan, Candidates, HasExperiment, Alpn, NoSni, Make;
    VariantShapes(t);
    MadeSpec(ident, Alpn(t));
    MadeSpec(ident, NoSni(t));
    PlanReads(ident, t, s.observations, sl, quic);
    CandidatesRead(ident, t, s.observations, sl, quic);
  }

  /** An uninterrupted run measures both variants and stops. */
  lemma WholeRun(ident: Ident, t: Target)
    requires t.IsHTTPS() && SeparateIds(ident, t)
    ensures var f := Run(ident, AdaptivePolicy(ident, false), Survey(Some(t), 0, [], []), Attempt(20, Network(OnlyAlpn()), Never())).final;
            && f.observations == SeenAll(ident, Common(t) + [Alpn(t), NoSni(t)])
            && AdaptivePolicy(ident, false).done(f)
  {
    hide Seen, Reads, AdaptivePolicy, Rounds, Alpn, NoSni, Common, SeparateIds, HasExperiment, Network, Never, Propose, Write, WriteQuic, NewSpecs;
    var s := CommonRounds(ident, t, 20);
    var sl, quic := SlotsAfterCommon(ident, t, s.observations);
    CommonNewAt(ident, t);
    PairProposal(ident, t, s, 16, sl, quic);
    var n := RoundOf(ident, s, 16, 3, Pair(t, 16));
    AllTold(ident, Common(t), [Alpn(t), NoSni(t)]);
    VariantShapes(t);
    SeenIs(ident, Alpn(t));
    SeenIs(ident, NoSni(t));
    var a, b := Seen(ident, Alpn(t)), Seen(ident, NoSni(t));
    assert n.observations == (s.observations + [a]) + [b];
    ReadsMore(s.observations, sl, quic, a);
    ReadsMore(s.observations + [a], Write(sl, a, IPv4), WriteQuic(quic, a, IPv4), b);
    TlsWrites(sl, quic, a);
    TlsWrites(sl.(tls := Some(a)), quic, b);
    HasLast(s.observations + [a], b);
    HasLast(s.observations, a);
    HasMore(s.observations + [a], b, a.experiment.id);
    DoneWhen(ident, t, n, sl.(tls := Some(b)), quic);
    StopsHere(ident, n, 14, 4);
  }

  lemma TlsWrites(sl: Slots, quic: Option<Observation>, o: Observation)
    requires o.layer == LayerTLS && o.experiment.spec.family == IPv4
    ensures Write(sl, o, IPv4) == sl.(tls := Some(o)) && WriteQuic(quic, o, IPv4) == quic
  {
  }

  lemma HasLast(obs: seq<Observation>, o: Observation)
    requires o.experiment.id != ""
    ensures HasExperiment(obs + [o], o.experiment.id)
  {
    assert (obs + [o])[|obs|] == o;
  }

  lemma HasMore(obs: seq<Observation>, o: Observation, id: string)
    requires HasExperiment(obs, id)
    ensures HasExperiment(obs + [o], id)
  {
    var i :| 0 <= i < |obs| && obs[i].experiment.id == id;
    assert (obs + [o])[i] == obs[i];
  }

  lemma AllTold(ident: Ident, specs: seq<Spec>, more: seq<Spec>)
    ensures SeenAll(ident, specs + more) == SeenAll(ident, specs) + SeenAll(ident, more)
  {
    hide Seen;
  }

  lemma SlotsAfterCommon(ident: Ident, t: Target, obs: seq<Observation>) returns (sl: Slots, quic: Option<Observation>)
    requires obs == SeenAll(ident, Common(t))
    ensures Reads(obs, sl, quic) && Passes(sl.tcp) && Fails(sl.tls) && sl.http.None? && Passes(quic)
  {
    hide Seen, Reads, DnsSpec, TcpSpec, QuicSpec, TlsSpec;
    CommonReads(ident, t);
    var c, q, l := Seen(ident, TcpSpec(t, IPv4)), Seen(ident, QuicSpec(t, IPv4, "")), Seen(ident, TlsSpec(t, IPv4, "", ""));
    assert obs == [Seen(ident, DnsSpec(t, ResolverSystem)), c, q, l];
    sl, quic := Slots(Some(c), Some(l), None), Some(q);
  }

  lemma CommonNewAt(ident: Ident, t: Target)
    requires SeparateIds(ident, t)
    ensures var obs := SeenAll(ident, Common(t));
            && NewSpecs(ident, obs, [Alpn(t), NoSni(t)])
            && NewSpecs(ident, obs + [Seen(ident, Alpn(t))], [HttpSpec(t, IPv4, "")])
  {
    hide Seen, DnsSpec, TcpSpec, QuicSpec, TlsSpec, Alpn, NoSni, SeparateIds, NewSpecs, HttpSpec;
    CommonNew(ident, t);
    var d, c, q, l := Seen(ident, DnsSpec(t, ResolverSystem)), Seen(ident, TcpSpec(t, IPv4)),
                      Seen(ident, QuicSpec(t, IPv4, "")), Seen(ident, TlsSpec(t, IPv4, "", ""));
    assert SeenAll(ident, Common(t)) == [d, c, q, l];
    assert [d, c, q, l] + [Seen(ident, Alpn(t))] == [d, c, q, l, Seen(ident, Alpn(t))];
  }

  /** A run cut after five probes measures one variant; it passes, and the resumed run goes on to
      HTTP instead of the other. */
  lemma CutRun(ident: Ident, t: Target) returns (s: Survey)
    requires t.IsHTTPS() && SeparateIds(ident, t)
    ensures s == Run(ident, AdaptivePolicy(ident, false), Survey(Some(t), 0, [], []), Attempt(5, Network(OnlyAlpn()), Never())).final
    ensures s.target == Some(t) && s.observations == SeenAll(ident, Common(t)) + [Seen(ident, Alpn(t))]
  {
    hide Seen, Reads, AdaptivePolicy, Rounds, Alpn, NoSni, Common, SeparateIds, HasExperiment, Network, Never, Propose, NewSpecs;
    var r := CommonRounds(ident, t, 5);
    var sl, quic := SlotsAfterCommon(ident, t, r.observations);
    CommonNewAt(ident, t);
    PairProposal(ident, t, r, 1, sl, quic);
    s := RoundOf(ident, r, 1, 3, Pair(t, 1));
    assert SeenAll(ident, [Alpn(t)]) == [Seen(ident, Alpn(t))];
    StopsHere(ident, s, 0, 4);
  }

  lemma ResumedRun(ident: Ident, t: Target, s: Survey)
    requires t.IsHTTPS() && SeparateIds(ident, t)
    requires s.target == Some(t) && s.observations == SeenAll(ident, Common(t)) + [Seen(ident, Alpn(t))]
    ensures var f := Run(ident, AdaptivePolicy(ident, false), s, Attempt(20, Network(OnlyAlpn()), Never())).final;
            && f.observations == SeenAll(ident, Common(t) + [Alpn(t), HttpSpec(t, IPv4, "")])
            && AdaptivePolicy(ident, false).done(f)
  {
    hide Seen, Reads, AdaptivePolicy, Rounds, Alpn, NoSni, Common, SeparateIds, HasExperiment, Network, Never, Propose, Write, WriteQuic,
      HttpSpec, NewSpecs, Plan, Make, MenuOf;
    var before, spec := SeenAll(ident, Common(t)), HttpSpec(t, IPv4, "");
    var sl, quic := SlotsAfterCommon(ident, t, before);
    CommonNewAt(ident, t);
    VariantShapes(t);
    SeenIs(ident, Alpn(t));
    SeenIs(ident, spec);
    var a, h := Seen(ident, Alpn(t)), Seen(ident, spec);
    ReadsMore(before, sl, quic, a);
    TlsWrites(sl, quic, a);
    PlanReads(ident, t, s.observations, sl.(tls := Some(a)), quic);
    assert Plan(ident, false, t, s.observations) == Made(ident, [spec]) by { HttpNext(ident, t, sl.(tls := Some(a)), quic); }
    TreeProposal(ident, t, s, 15, [spec]);
    assert |s.observations| == 5 by { FiveSeen(ident, t); }
    var n := RoundOf(ident, s, 15, 0, [spec]);
    assert SeenAll(ident, [spec]) == [h];
    ReadsMore(s.observations, sl.(tls := Some(a)), quic, h);
    HttpWrites(sl.(tls := Some(a)), quic, h);
    AllTold(ident, Common(t), [Alpn(t), spec]);
    assert SeenAll(ident, [Alpn(t), spec]) == [a, h];
    assert n.observations == before + [a, h];
    DoneWhen(ident, t, n, sl.(tls := Some(a), http := Some(h)), quic);
    StopsHere(ident, n, 14, 1);
  }

  lemma FiveSeen(ident: Ident, t: Target)
    ensures |SeenAll(ident, Common(t)) + [Seen(ident, Alpn(t))]| == 5
  {
    hide Seen;
  }

  lemma HttpNext(ident: Ident, t: Target, sl: Slots, quic: Option<Observation>)
    requires t.IsHTTPS() && Passes(sl.tcp) && Passes(sl.tls) && sl.http.None? && Passes(quic)
    ensures NextOne(true, MenuOf(ident, t, IPv4), sl, quic) == Made(ident, [HttpSpec(t, IPv4, "")])
  {
    hide Make, HttpSpec;
  }

  lemma HttpWrites(sl: Slots, quic: Option<Observation>, o: Observation)
    requires o.layer == LayerHTTP && o.experiment.spec.family == IPv4
    ensures Write(sl, o, IPv4) == sl.(http := Some(o)) && WriteQuic(quic, o, IPv4) == quic
  {
  }

  /** Adaptive is not resume-equivalent in general: for every https target there are two chains of
      runs against one consistent network that are both done and leave different records. The
      uninterrupted one holds the variant without server name, the one cut after five probes
      holds HTTP instead. */
  lemma CutChainsDisagree(ident: Ident, t: Target)
    requires t.IsHTTPS() && SeparateIds(ident, t)
    ensures var pol := AdaptivePolicy(ident, false);
            var s := Survey(Some(t), 0, [], []);
            var whole := Resumes(ident, pol, s, [Attempt(20, Network(OnlyAlpn()), Never())]);
            var cut := Resumes(ident, pol, s, [Attempt(5, Network(OnlyAlpn()), Never()), Attempt(20, Network(OnlyAlpn()), Never())]);
            && pol.done(whole) && pol.done(cut)
            && whole.observations == SeenAll(ident, Common(t) + [Alpn(t), NoSni(t)])
            && cut.observations == SeenAll(ident, Common(t) + [Alpn(t), HttpSpec(t, IPv4, "")])
            && whole.observations != cut.observations
  {
    hide Seen, AdaptivePolicy, Run, Common, SeparateIds, Alpn, NoSni, HttpSpec, Network, Never;
    var s := Survey(Some(t), 0, [], []);
    WholeRun(ident, t);
    var m := CutRun(ident, t);
    ResumedRun(ident, t, m);
    var first, rest := Attempt(5, Network(OnlyAlpn()), Never()), Attempt(20, Network(OnlyAlpn()), Never());
    assert [rest][1..] == [] && [first, rest][1..] == [rest];
    LastDiffers(ident, t);
  }

  lemma LastDiffers(ident: Ident, t: Target)
    ensures SeenAll(ident, Common(t) + [Alpn(t), NoSni(t)]) != SeenAll(ident, Common(t) + [Alpn(t), HttpSpec(t, IPv4, "")])
  {
    hide Seen, HttpSpec, Alpn, NoSni;
    VariantShapes(t);
    SeenIs(ident, NoSni(t));
    SeenIs(ident, HttpSpec(t, IPv4, ""));
    var x, y := SeenAll(ident, Common(t) + [Alpn(t), NoSni(t)]), SeenAll(ident, Common(t) + [Alpn(t), HttpSpec(t, IPv4, "")]);
    assert x[5] == Seen(ident, NoSni(t)) && y[5] == Seen(ident, HttpSpec(t, IPv4, ""));
  }
}
