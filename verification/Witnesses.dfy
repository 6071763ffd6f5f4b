/** Runs that end where a property fails. */
module Witnesses {
  import opened Model
  import opened Selectors
  import opened Dedupe
  import opened Runs
  import opened Fast
  import opened FastRuns
  import opened Adaptive
  import opened AdaptiveRuns
  import opened AdaptiveChoice
  import opened Infer
  import opened InferFacts
  import Factorial

  /** A network that resolves names, without saying to which family, and refuses all else. */
  function Refusing(): Probe {
    (at: nat, e: Experiment) =>
      Observation(e, e.spec.layer, if e.spec.layer == LayerDNS then Pass else Fail, 0, [], [], "")
  }

  function Never(): nat -> bool { (k: nat) => false }

  function Refused(ident: Ident, s: Spec): Observation {
    Observation(Make(ident, s), s.layer, if s.layer == LayerDNS then Pass else Fail, 0, [], [], "")
  }

  function Allowing(maxProbes: int): Attempt {
    Attempt(maxProbes, Refusing(), Never())
  }

  /** One round that proposes a single new experiment. */
  lemma OneRound(ident: Ident, pol: Policy, s: Survey, budget: nat, k: nat, spec: Spec)
    requires k < MAX_ROUNDS && budget > 0 && !pol.done(s) && Defaults(spec) == spec
    requires pol.propose(s, budget).Success?
    requires Fresh(ident, s.observations, {}, pol.propose(s, budget).value, budget) == [Make(ident, spec)]
    ensures exists n: Survey :: n.target == s.target && n.observations == s.observations + [Refused(ident, spec)]
              && Rounds(ident, pol, Refusing(), Never(), s, budget, k)
                 == Rounds(ident, pol, Refusing(), Never(), n, budget - 1, k + 1)
  {
    hide Fresh, Make;
    MadeSpec(ident, spec);
    var n := Step(Refusing(), s, [Make(ident, spec)]);
    assert n.observations == s.observations + [Refused(ident, spec)];
  }

  // ---------------------------------------------------------------------------------------
  // Adaptive: "first wins" and "canonical wins" disagree on TCP

  /** The plan's single new experiment is what is proposed and executed. */
  lemma TreeProposal(ident: Ident, t: Target, s: Survey, budget: nat, spec: Spec)
    requires s.target == Some(t) && budget > 0 && Defaults(spec) == spec
    requires Plan(ident, false, t, s.observations) == [Make(ident, spec)] && !HasExperiment(s.observations, ident(spec))
    ensures var pol := AdaptivePolicy(ident, false);
            !pol.done(s) && pol.propose(s, budget).Success?
            && Fresh(ident, s.observations, {}, pol.propose(s, budget).value, budget) == [Make(ident, spec)]
  {
    hide Plan, Make, HasExperiment, Normalize;
    MadeSpec(ident, spec);
    FreshKeeps(ident, s.observations, {}, [Make(ident, spec)], budget);
    RunnerKeepsProposal(ident, false, s, budget);
  }

  lemma FollowUpProposal(ident: Ident, t: Target, s: Survey, budget: nat, spec: Spec)
    requires s.target == Some(t) && budget > 0
    requires Propose(ident, false, s, budget) == [Make(ident, spec)] && PlanOf(ident, false, s) == []
    ensures var pol := AdaptivePolicy(ident, false);
            !pol.done(s) && pol.propose(s, budget).Success?
            && Fresh(ident, s.observations, {}, pol.propose(s, budget).value, budget) == [Make(ident, spec)]
  {
    hide PlanOf, Make, Candidates;
    RunnerKeepsProposal(ident, false, s, budget);
    var cs := Candidates(ident, false, t, s.observations);
    if cs == [] {
      NothingToPropose(ident, false, s, budget);
    }
  }

  lemma PlanOfPlain(ident: Ident, t: Target)
    requires !t.IsHTTPS()
    ensures var d, a := Refused(ident, DnsSpec(t, ResolverSystem)), Refused(ident, TcpSpec(t, IPv4));
            && Plan(ident, false, t, []) == [Make(ident, DnsSpec(t, ResolverSystem))]
            && Plan(ident, false, t, [d]) == [Make(ident, TcpSpec(t, IPv4))]
            && Plan(ident, false, t, [d, a]) == []
            && Latest([d, a], LayerDNS, NoFamily) == Some(d) && Families(d, false) == [IPv4]
            && Latest([d, a], LayerTCP, IPv4) == Some(a)
  {
    hide Make;
    var d, a := Refused(ident, DnsSpec(t, ResolverSystem)), Refused(ident, TcpSpec(t, IPv4));
    MadeSpec(ident, TcpSpec(t, IPv4));
    assert [d] == [] + [d] && [d, a] == [d] + [a];
    LatestAppend([], d, LayerDNS, NoFamily);
    LatestAppend([], d, LayerTCP, IPv4);
    LatestAppend([d], a, LayerDNS, NoFamily);
    LatestAppend([d], a, LayerTCP, IPv4);
    TreeOfOne(ident, t, [d], IPv4);
    TreeOfOne(ident, t, [d, a], IPv4);
  }

  /** Two rounds: DNS, then the connect to the target's port. */
  lemma FirstRounds(ident: Ident, t: Target) returns (s: Survey)
    requires !t.IsHTTPS() && ident(DnsSpec(t, ResolverSystem)) != ident(TcpSpec(t, IPv4))
    ensures s.target == Some(t) && s.observations == [Refused(ident, DnsSpec(t, ResolverSystem)), Refused(ident, TcpSpec(t, IPv4))]
    ensures Rounds(ident, AdaptivePolicy(ident, false), Refusing(), Never(), Survey(Some(t), 0, [], []), 3, 0)
            == Rounds(ident, AdaptivePolicy(ident, false), Refusing(), Never(), s, 1, 2)
  {
    hide Plan, Make, AdaptivePolicy, DnsSpec, TcpSpec, Fresh, Latest, Families, Refusing, Never, Rounds;
    var x, y := DnsSpec(t, ResolverSystem), TcpSpec(t, IPv4);
    var d, a := Refused(ident, x), Refused(ident, y);
    MadeSpec(ident, x);
    MadeSpec(ident, y);
    PlanOfPlain(ident, t);
    var pol := AdaptivePolicy(ident, false);
    var s0 := Survey(Some(t), 0, [], []);
    TreeProposal(ident, t, s0, 3, x);
    OneRound(ident, pol, s0, 3, 0, x);
    var s1: Survey :| s1.target == Some(t) && s1.observations == [] + [d]
      && Rounds(ident, pol, Refusing(), Never(), s0, 3, 0) == Rounds(ident, pol, Refusing(), Never(), s1, 2, 1);
    assert s1.observations == [d];
    TreeProposal(ident, t, s1, 2, y);
    OneRound(ident, pol, s1, 2, 1, y);
    s :| s.target == Some(t) && s.observations == [d] + [a]
      && Rounds(ident, pol, Refusing(), Never(), s1, 2, 1) == Rounds(ident, pol, Refusing(), Never(), s, 1, 2);
  }

  /** The third round connects to port 80, and the budget is spent. */
  lemma ThirdRound(ident: Ident, t: Target, s: Survey)
    requires s.target == Some(t) && !t.IsHTTPS()
    requires s.observations == [Refused(ident, DnsSpec(t, ResolverSystem)), Refused(ident, TcpSpec(t, IPv4))]
    requires ident(TcpSpec(WithPort(t, 80), IPv4)) != ident(DnsSpec(t, ResolverSystem))
    requires ident(TcpSpec(WithPort(t, 80), IPv4)) != ident(TcpSpec(t, IPv4))
    ensures var b := Refused(ident, TcpSpec(WithPort(t, 80), IPv4));
            var f := Rounds(ident, AdaptivePolicy(ident, false), Refusing(), Never(), s, 1, 2).final.observations;
            f == s.observations + [b] && First(f, LayerTCP, IPv4) != Some(b) && Pick(f, LayerTCP, IPv4) == Some(b)
  {
    hide Plan, Make, AdaptivePolicy, DnsSpec, TcpSpec, Fresh, Latest, Families, WithPort, Propose, PlanOf, First, Pick;
    var z := TcpSpec(WithPort(t, 80), IPv4);
    MadeSpec(ident, DnsSpec(t, ResolverSystem));
    MadeSpec(ident, TcpSpec(t, IPv4));
    MadeSpec(ident, z);
    PlanOfPlain(ident, t);
    NoPlan(ident, t, s);
    TcpFollowUpSplits(ident, false, t, s, 1, Refused(ident, z));
    FollowUpProposal(ident, t, s, 1, z);
    OneRound(ident, AdaptivePolicy(ident, false), s, 1, 2, z);
  }

  /** From a fresh survey of a plain HTTP target on a port other than 80, against a network that
      refuses every connect, Adaptive probes DNS, the port and port 80; then the first TCP
      observation and the one inference prefers are different. */
  lemma TcpSelectorsSplit(ident: Ident, t: Target)
    requires !t.IsHTTPS() && t.port != 80
    requires var specs := {DnsSpec(t, ResolverSystem), TcpSpec(t, IPv4), TcpSpec(WithPort(t, 80), IPv4)};
             forall x, y :: x in specs && y in specs && ident(x) == ident(y) ==> x == y
    ensures var obs := Run(ident, AdaptivePolicy(ident, false), Survey(Some(t), 0, [], []), Allowing(3)).final.observations;
            && obs == [Refused(ident, DnsSpec(t, ResolverSystem)), Refused(ident, TcpSpec(t, IPv4)),
                       Refused(ident, TcpSpec(WithPort(t, 80), IPv4))]
            && First(obs, LayerTCP, IPv4) != Pick(obs, LayerTCP, IPv4)
  {
    hide AdaptivePolicy, DnsSpec, TcpSpec, WithPort, First, Pick, Refused, Rounds;
    PortsDiffer(t);
    var s := FirstRounds(ident, t);
    ThirdRound(ident, t, s);
    var b := Refused(ident, TcpSpec(WithPort(t, 80), IPv4));
    assert s.observations + [b] == [s.observations[0], s.observations[1], b];
  }

  lemma NoPlan(ident: Ident, t: Target, s: Survey)
    requires s.target == Some(t) && Plan(ident, false, t, s.observations) == []
    ensures PlanOf(ident, false, s) == []
  {
  }

  lemma PortsDiffer(t: Target)
    requires t.port != 80
    ensures TcpSpec(t, IPv4) != TcpSpec(WithPort(t, 80), IPv4)
  {
  }

  // ---------------------------------------------------------------------------------------
  // Factorial: a finding without evidence

  lemma AnyProposal(ident: Ident, t: Target, control: Option<Target>)
    ensures var pol := Factorial.FactorialPolicy(ident, Factorial.NewFactorial([FamilyAny], [TCP], control, 0));
            var s := Survey(Some(t), 0, [], []);
            !pol.done(s) && pol.propose(s, 1).Success?
            && Fresh(ident, [], {}, pol.propose(s, 1).value, 1) == [Make(ident, TcpSpec(t, FamilyAny))]
  {
    hide Make, Factorial.Product, Factorial.NewFactorial, TcpSpec, Fresh, Normalize;
    var p := Factorial.NewFactorial([FamilyAny], [TCP], control, 0);
    var spec := TcpSpec(t, FamilyAny);
    var exps := Factorial.Product(ident, p, t);
    FirstOfProduct(ident, t, control);
    MadeSpec(ident, spec);
    FreshFirst(ident, exps, spec);
    FreshNonempty(ident, [], exps, 1, p.maxCandidates);
    FreshTwice(ident, [], exps, 1);
  }

  /** A Factorial survey over the family "any" against a network that refuses the connect ends
      with tcp_unreachable as its only finding, and no evidence for it. */
  lemma UnreachableWithoutEvidence(ident: Ident, t: Target, control: Option<Target>)
    ensures var p := Factorial.NewFactorial([FamilyAny], [TCP], control, 0);
            var obs := Run(ident, Factorial.FactorialPolicy(ident, p), Survey(Some(t), 0, [], []), Allowing(1)).final.observations;
            && obs == [Refused(ident, TcpSpec(t, FamilyAny))]
            && InferFrom(obs) == [Finding(TCPUnreachable, Likely, [])]
  {
    hide Make, Factorial.FactorialPolicy, Factorial.NewFactorial, InferFrom, TcpSpec, Fresh, Refused, Refusing, Never;
    var pol := Factorial.FactorialPolicy(ident, Factorial.NewFactorial([FamilyAny], [TCP], control, 0));
    var s := Survey(Some(t), 0, [], []);
    AnyProposal(ident, t, control);
    OneRound(ident, pol, s, 1, 0, TcpSpec(t, FamilyAny));
    assert [] + [Refused(ident, TcpSpec(t, FamilyAny))] == [Refused(ident, TcpSpec(t, FamilyAny))];
    OneRefusal(ident, t);
  }

  lemma FreshFirst(ident: Ident, exps: seq<Experiment>, spec: Spec)
    requires |exps| > 0 && exps[0] == Make(ident, spec) && Normalize(ident, exps[0]) == exps[0]
    ensures Fresh(ident, [], {}, exps, 1) == [exps[0]]
  {
    hide Make;
    NormalizeIdempotent(ident, exps[0]);
  }

  lemma FirstOfProduct(ident: Ident, t: Target, control: Option<Target>)
    ensures var p := Factorial.NewFactorial([FamilyAny], [TCP], control, 0);
            var exps := Factorial.Product(ident, p, t);
            |exps| > 0 && exps[0] == Make(ident, TcpSpec(t, FamilyAny))
  {
    hide Make, Factorial.Product, TcpSpec;
    var p := Factorial.NewFactorial([FamilyAny], [TCP], control, 0);
    Factorial.AppendNext(ident, p, t, 0, 0, 0);
    assert p.transports[..0] == [];
  }

  lemma OneRefusal(ident: Ident, t: Target)
    ensures InferFrom([Refused(ident, TcpSpec(t, FamilyAny))]) == [Finding(TCPUnreachable, Likely, [])]
  {
    hide Make, Pick, Lines, TcpSpec;
    var o := Refused(ident, TcpSpec(t, FamilyAny));
    var obs := [o];
    MadeSpec(ident, TcpSpec(t, FamilyAny));
    PickIsThere(obs, LayerDNS, NoFamily);
    PickIsThere(obs, LayerTCP, IPv4);
    PickIsThere(obs, LayerTCP, IPv6);
    assert Attempted(obs[0]) && !Has(obs[0], KindTCPRefused);
    NoLines(Pick(obs, LayerTCP, IPv4), Pick(obs, LayerTCP, IPv6));
  }
}
