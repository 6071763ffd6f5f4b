/** The Factorial policy: the capped product of families, transports and targets. */
module Factorial {
  import opened Model
  import opened Dedupe
  import opened Runs
  import opened Sorting

  const DEFAULT_MAX_CANDIDATES := 64

  /** The options with their defaults filled in; a control that did not parse has no host. */
  datatype Factors = Factors(families: seq<Family>, transports: seq<Transport>, control: Target, maxCandidates: nat) {
    predicate Valid() { |families| > 0 && |transports| > 0 && maxCandidates > 0 }
  }

  function NewFactorial(families: seq<Family>, transports: seq<Transport>, control: Option<Target>,
                        maxCandidates: int): (p: Factors)
    ensures p.Valid()
  {
    Factors(if families == [] then [IPv4, IPv6] else families,
            if transports == [] then [TCP, QUIC] else transports,
            if control.Some? then control.value else Target(None, "", 0),
            if maxCandidates <= 0 then DEFAULT_MAX_CANDIDATES else maxCandidates)
  }

  predicate IsKnown(tr: Transport) { tr == TCP || tr == UDP || tr == QUIC }

  /** The transports that have a probe; others are skipped. */
  function Known(transports: seq<Transport>): seq<Transport> {
    if |transports| == 0 then []
    else
      var n := |transports| - 1;
      Known(transports[..n]) + if IsKnown(transports[n]) then [transports[n]] else []
  }

  function SpecFor(t: Target, f: Family, tr: Transport): Spec {
    if tr == UDP then UdpSpec(t, f, 0) else if tr == QUIC then QuicSpec(t, f, "") else TcpSpec(t, f)
  }

  function Levels(p: Factors, t: Target): (ts: seq<Target>)
    ensures |ts| > 0
  {
    if p.control.host != "" then [t, p.control] else [t]
  }

  datatype Combination = Combination(family: Family, transport: Transport, target: Target)

  function Count(nf: nat, nk: nat, nt: nat): nat { nf * nk * nt }

  /** The digits of an index: the target varies fastest, the family slowest. */
  function FamilyDigit(nk: nat, nt: nat, k: nat): nat
    requires nk > 0 && nt > 0
  {
    k / nt / nk
  }

  lemma FamilyDigitBound(nf: nat, nk: nat, nt: nat, k: nat)
    requires nk > 0 && nt > 0 && k < Count(nf, nk, nt)
    ensures FamilyDigit(nk, nt, k) < nf
  {
    Digits(nf, nk, nt, k);
  }

  function TransportDigit(nk: nat, nt: nat, k: nat): (d: nat)
    requires nk > 0 && nt > 0
    ensures d < nk
  {
    k / nt % nk
  }

  function TargetDigit(nt: nat, k: nat): (d: nat)
    requires nt > 0
    ensures d < nt
  {
    k % nt
  }

  /** The k-th combination: k read as a number with one digit for each factor. */
  function Decode(fs: seq<Family>, ks: seq<Transport>, ts: seq<Target>, k: nat): Combination
    requires |ks| > 0 && |ts| > 0 && k < Count(|fs|, |ks|, |ts|)
  {
    FamilyDigitBound(|fs|, |ks|, |ts|, k);
    Combination(fs[FamilyDigit(|ks|, |ts|, k)], ks[TransportDigit(|ks|, |ts|, k)], ts[TargetDigit(|ts|, k)])
  }

  function Size(p: Factors, t: Target): nat {
    Count(|p.families|, |Known(p.transports)|, |Levels(p, t)|)
  }

  function Combinations(p: Factors, t: Target): seq<Combination> {
    var ks, ts := Known(p.transports), Levels(p, t);
    seq(Size(p, t), k requires 0 <= k < Size(p, t) =>
      if |ks| == 0 then Combination(NoFamily, NoTransport, t) else Decode(p.families, ks, ts, k))
  }

  function ExperimentOf(ident: Ident, c: Combination): Experiment {
    Make(ident, SpecFor(c.target, c.family, c.transport))
  }

  function Capped(p: Factors, t: Target): nat {
    if Size(p, t) < p.maxCandidates then Size(p, t) else p.maxCandidates
  }

  /** The candidates: the first of all combinations, up to the cap. */
  function Product(ident: Ident, p: Factors, t: Target): (out: seq<Experiment>)
    ensures |out| == Capped(p, t)
  {
    seq(Capped(p, t), k requires 0 <= k < Capped(p, t) => ExperimentOf(ident, Combinations(p, t)[k]))
  }

  function FactorialPolicy(ident: Ident, p: Factors): Policy {
    Policy(
      (s: Survey) => s.target.None?
        || Fresh(ident, s.observations, {}, Product(ident, p, s.target.value), p.maxCandidates) == [],
      (s: Survey, budget: nat) =>
        if s.target.None? then Failure("policy: survey state has no target")
        else Success(Fresh(ident, s.observations, {}, Product(ident, p, s.target.value), budget)))
  }

  // ---------------------------------------------------------------------------------------
  // Arithmetic of the index

  lemma DivMod(a: nat, b: nat, n: nat)
    requires b < n
    ensures (a * n + b) / n == a && (a * n + b) % n == b
  {
    var x := a * n + b;
    assert x == n * (x / n) + x % n;
    if x / n < a {
      Times(x / n + 1, a, n);
    } else if x / n > a {
      Times(a + 1, x / n, n);
    }
  }

  lemma Times(a: int, b: int, n: nat)
    requires a <= b
    ensures a * n <= b * n
  {
  }

  lemma Digits(f: nat, k: nat, t: nat, i: nat)
    requires k > 0 && t > 0 && i < Count(f, k, t)
    ensures i / t < f * k && i / t / k < f
    ensures (i / t / k * k + i / t % k) * t + i % t == i
  {
    assert i == t * (i / t) + i % t;
    if i / t >= f * k { Times(f * k, i / t, t); }
    var j := i / t;
    assert j == k * (j / k) + j % k;
    if j / k >= f { Times(f, j / k, k); }
  }

  function Index(nk: nat, nt: nat, i: nat, j: nat, l: nat): nat { (i * nk + j) * nt + l }

  /** Digits and index are inverse to each other. */
  lemma IndexDigits(nf: nat, nk: nat, nt: nat, i: nat, j: nat, l: nat)
    requires i < nf && j < nk && l < nt
    ensures var k := Index(nk, nt, i, j, l);
            && k < Count(nf, nk, nt)
            && FamilyDigit(nk, nt, k) == i && TransportDigit(nk, nt, k) == j && TargetDigit(nt, k) == l
  {
    Times(i + 1, nf, nk);
    assert (i + 1) * nk == i * nk + nk;
    Times(i * nk + j + 1, nf * nk, nt);
    assert (i * nk + j + 1) * nt == (i * nk + j) * nt + nt;
    DivMod(i * nk + j, l, nt);
    DivMod(i, j, nk);
  }

  lemma DigitsIndex(nf: nat, nk: nat, nt: nat, k: nat)
    requires nk > 0 && nt > 0 && k < Count(nf, nk, nt)
    ensures Index(nk, nt, FamilyDigit(nk, nt, k), TransportDigit(nk, nt, k), TargetDigit(nt, k)) == k
  {
    Digits(nf, nk, nt, k);
  }

  lemma Position(fs: seq<Family>, ks: seq<Transport>, ts: seq<Target>, i: nat, j: nat, l: nat)
    requires i < |fs| && j < |ks| && l < |ts|
    ensures var k := Index(|ks|, |ts|, i, j, l);
            k < Count(|fs|, |ks|, |ts|) && Decode(fs, ks, ts, k) == Combination(fs[i], ks[j], ts[l])
  {
    hide Count, Index, FamilyDigit, TransportDigit, TargetDigit;
    IndexDigits(|fs|, |ks|, |ts|, i, j, l);
  }

  lemma NoneToCount(nf: nat, nt: nat)
    ensures Count(nf, 0, nt) == 0
  {
  }

  // ---------------------------------------------------------------------------------------
  // The loops

  lemma {:induction false} KnownGrows(transports: seq<Transport>, j: nat)
    requires j < |transports|
    ensures var ks := Known(transports);
            && Known(transports[..j]) <= ks
            && Known(transports[..j + 1]) <= ks
            && |Known(transports[..j + 1])| == |Known(transports[..j])| + (if IsKnown(transports[j]) then 1 else 0)
            && (IsKnown(transports[j]) ==> |Known(transports[..j])| < |ks| && ks[|Known(transports[..j])|] == transports[j])
    decreases |transports|
  {
    var n := |transports| - 1;
    assert transports[..j + 1][..j] == transports[..j];
    if j < n {
      KnownGrows(transports[..n], j);
      assert transports[..n][..j] == transports[..j] && transports[..n][..j + 1] == transports[..j + 1];
    } else {
      assert transports[..j + 1] == transports;
    }
  }

  lemma AppendNext(ident: Ident, p: Factors, t: Target, i: nat, j: nat, l: nat)
    requires p.Valid() && i < |p.families| && j < |p.transports| && l < |Levels(p, t)|
    requires IsKnown(p.transports[j])
    ensures var k := Index(|Known(p.transports)|, |Levels(p, t)|, i, |Known(p.transports[..j])|, l);
            && k < Size(p, t)
            && (k < p.maxCandidates ==>
                k < |Product(ident, p, t)|
                && Product(ident, p, t)[k] == Make(ident, SpecFor(Levels(p, t)[l], p.families[i], p.transports[j])))
  {
    hide Make, SpecFor, Known, Decode, Count, Index;
    KnownGrows(p.transports, j);
    Position(p.families, Known(p.transports), Levels(p, t), i, |Known(p.transports[..j])|, l);
  }

  method BuildProduct(ident: Ident, p: Factors, t: Target) returns (out: seq<Experiment>)
    requires p.Valid()
    ensures out == Product(ident, p, t)
  {
    hide Make, SpecFor, Known, Product, Levels;
    var targets := Levels(p, t);
    ghost var ks, all := Known(p.transports), Product(ident, p, t);
    out := [];
    var i := 0;
    while i < |p.families|
      invariant 0 <= i <= |p.families|
      invariant |out| == i * |ks| * |targets| && |out| < p.maxCandidates && out <= all
    {
      NoneKnown();
      assert p.transports[..0] == [];
      var j := 0;
      while j < |p.transports|
        invariant 0 <= j <= |p.transports|
        invariant |out| == (i * |ks| + |Known(p.transports[..j])|) * |targets|
        invariant |out| < p.maxCandidates && out <= all
      {
        KnownGrows(p.transports, j);
        if IsKnown(p.transports[j]) {
          var done;
          out, done := AddTargets(ident, p, t, i, j, out);
          if done { return; }
        }
        j := j + 1;
      }
      assert p.transports[..|p.transports|] == p.transports;
      assert (i + 1) * |ks| == i * |ks| + |ks|;
      i := i + 1;
    }
  }

  lemma NoneKnown()
    ensures Known([]) == []
  {
  }

  /** The innermost loop; it stops at the cap. */
  method AddTargets(ident: Ident, p: Factors, t: Target, i: nat, j: nat, before: seq<Experiment>)
    returns (out: seq<Experiment>, done: bool)
    requires p.Valid() && i < |p.families| && j < |p.transports| && IsKnown(p.transports[j])
    requires |before| == (i * |Known(p.transports)| + |Known(p.transports[..j])|) * |Levels(p, t)|
    requires |before| < p.maxCandidates && before <= Product(ident, p, t)
    ensures done ==> out == Product(ident, p, t)
    ensures !done ==> |out| == |before| + |Levels(p, t)| && |out| < p.maxCandidates && out <= Product(ident, p, t)
    ensures !done ==> |out| == (i * |Known(p.transports)| + |Known(p.transports[..j])| + 1) * |Levels(p, t)|
  {
    hide Make, SpecFor, Known, Product, Levels;
    out, done := before, false;
    ghost var a := i * |Known(p.transports)| + |Known(p.transports[..j])|;
    var targets := Levels(p, t);
    for l := 0 to |targets|
      invariant |out| == a * |targets| + l && |out| < p.maxCandidates && out <= Product(ident, p, t)
    {
      AppendNext(ident, p, t, i, j, l);
      out := out + [Make(ident, SpecFor(targets[l], p.families[i], p.transports[j]))];
      if |out| >= p.maxCandidates { return out, true; }
    }
    assert (a + 1) * |targets| == a * |targets| + |targets|;
  }

  // ---------------------------------------------------------------------------------------
  // The product is complete and without repetition

  lemma {:induction false} KnownMeaning(transports: seq<Transport>)
    ensures forall tr :: tr in Known(transports) <==> tr in transports && IsKnown(tr)
    ensures Distinct(transports) ==> Distinct(Known(transports))
  {
    if |transports| > 0 {
      var n := |transports| - 1;
      KnownMeaning(transports[..n]);
      assert transports == transports[..n] + [transports[n]];
      if Distinct(transports) { assert transports[n] !in transports[..n]; }
    }
  }

  lemma LevelsAre(p: Factors, t: Target, x: Target)
    ensures x in Levels(p, t) <==> x == t || (x == p.control && p.control.host != "")
  {
  }

  /** Every choice of a family, a transport with a probe and a target appears. */
  lemma EveryCombination(p: Factors, t: Target, c: Combination)
    ensures c in Combinations(p, t) <==>
            && c.family in p.families && c.transport in p.transports && c.transport in {TCP, UDP, QUIC}
            && (c.target == t || (c.target == p.control && p.control.host != ""))
  {
    hide Levels, Known, Count, Index, FamilyDigit, TransportDigit, TargetDigit;
    var ks, ts := Known(p.transports), Levels(p, t);
    KnownMeaning(p.transports);
    LevelsAre(p, t, c.target);
    NoneToCount(|p.families|, |ts|);
    if c in Combinations(p, t) {
      var k :| 0 <= k < Size(p, t) && Combinations(p, t)[k] == c;
      assert c == Decode(p.families, ks, ts, k);
      FamilyDigitBound(|p.families|, |ks|, |ts|, k);
    }
    if c.family in p.families && c.transport in ks && c.target in ts {
      var i :| 0 <= i < |p.families| && p.families[i] == c.family;
      var j :| 0 <= j < |ks| && ks[j] == c.transport;
      var l :| 0 <= l < |ts| && ts[l] == c.target;
      Position(p.families, ks, ts, i, j, l);
      assert Combinations(p, t)[Index(|ks|, |ts|, i, j, l)] == c;
    }
  }

  /** With factors free of repetition, no combination appears twice. */
  lemma NoCombinationTwice(p: Factors, t: Target)
    requires Distinct(p.families) && Distinct(p.transports) && Distinct(Levels(p, t))
    ensures Distinct(Combinations(p, t))
  {
    hide Levels, Known, Count, Index, FamilyDigit, TransportDigit, TargetDigit;
    var fs, ks, ts := p.families, Known(p.transports), Levels(p, t);
    KnownMeaning(p.transports);
    NoneToCount(|fs|, |ts|);
    var all := Combinations(p, t);
    forall x, y | 0 <= x < y < |all| ensures all[x] != all[y] {
      FamilyDigitBound(|fs|, |ks|, |ts|, x);
      FamilyDigitBound(|fs|, |ks|, |ts|, y);
      DigitsIndex(|fs|, |ks|, |ts|, x);
      DigitsIndex(|fs|, |ks|, |ts|, y);
    }
  }

  /** Different combinations are different experiments once families and hosts are explicit. */
  lemma CombinationsAreExperiments(a: Combination, b: Combination)
    requires IsKnown(a.transport) && IsKnown(b.transport)
    requires a.family != NoFamily && b.family != NoFamily && a.target.host != "" && b.target.host != ""
    requires SpecFor(a.target, a.family, a.transport) == SpecFor(b.target, b.family, b.transport)
    ensures a == b
  {
    TargetKept(a);
    TargetKept(b);
  }

  lemma TargetKept(c: Combination)
    requires IsKnown(c.transport) && c.target.host != ""
    ensures SpecFor(c.target, c.family, c.transport).target == c.target
  {
  }

  /** Each experiment of the product probes its combination: over that transport on the layer of the
      same name, on that family and at that target. */
  lemma ProductProbes(ident: Ident, p: Factors, t: Target, k: nat)
    requires k < |Product(ident, p, t)|
    ensures k < |Combinations(p, t)|
    ensures var e, c := Product(ident, p, t)[k].spec, Combinations(p, t)[k];
            && e.transport == c.transport
            && (e.layer, c.transport) in {(LayerTCP, TCP), (LayerUDP, UDP), (LayerQUIC, QUIC)}
            && (c.family != NoFamily ==> e.family == c.family)
            && (c.target.host != "" ==> e.target == c.target)
  {
    hide Make, SpecFor, Decode, Levels, Known, Count;
    var c := Combinations(p, t)[k];
    assert c in Combinations(p, t);
    EveryCombination(p, t, c);
    SpecProbes(c);
    MadeSpec(ident, SpecFor(c.target, c.family, c.transport));
  }

  lemma SpecProbes(c: Combination)
    requires IsKnown(c.transport)
    ensures var e := SpecFor(c.target, c.family, c.transport);
            && Defaults(e) == e && e.transport == c.transport
            && (e.layer, c.transport) in {(LayerTCP, TCP), (LayerUDP, UDP), (LayerQUIC, QUIC)}
            && (c.family != NoFamily ==> e.family == c.family)
            && (c.target.host != "" ==> e.target == c.target)
  {
  }

  /** The defaults give two families times two transports times target and control, the target varying
      fastest and the family slowest. */
  lemma DefaultsMakeEight(ident: Ident, t: Target, control: Target)
    requires control.host != ""
    ensures Product(ident, NewFactorial([], [], Some(control), 0), t) ==
            [Make(ident, TcpSpec(t, IPv4)), Make(ident, TcpSpec(control, IPv4)),
             Make(ident, QuicSpec(t, IPv4, "")), Make(ident, QuicSpec(control, IPv4, "")),
             Make(ident, TcpSpec(t, IPv6)), Make(ident, TcpSpec(control, IPv6)),
             Make(ident, QuicSpec(t, IPv6, "")), Make(ident, QuicSpec(control, IPv6, ""))]
  {
    hide Make, TcpSpec, QuicSpec, Combinations, Known;
    DefaultCombinations(t, control);
    DefaultTransports();
  }

  lemma DefaultCombinations(t: Target, control: Target)
    requires control.host != ""
    ensures Combinations(NewFactorial([], [], Some(control), 0), t) ==
            [Combination(IPv4, TCP, t), Combination(IPv4, TCP, control), Combination(IPv4, QUIC, t), Combination(IPv4, QUIC, control),
             Combination(IPv6, TCP, t), Combination(IPv6, TCP, control), Combination(IPv6, QUIC, t), Combination(IPv6, QUIC, control)]
  {
    hide Known;
    DefaultTransports();
  }

  lemma DefaultTransports()
    ensures Known([TCP, QUIC]) == [TCP, QUIC]
  {
    assert [TCP, QUIC][..1] == [TCP] && [TCP][..0] == [];
    assert Known([TCP]) == [TCP];
  }

  /** Without a positive cap the product is cut at sixty-four experiments. */
  lemma DefaultCap(ident: Ident, families: seq<Family>, transports: seq<Transport>, control: Option<Target>, cap: int, t: Target)
    ensures var p := NewFactorial(families, transports, control, cap);
            var limit := if cap > 0 then cap else 64;
            && |Product(ident, p, t)| == (if |Combinations(p, t)| < limit then |Combinations(p, t)| else limit)
            && (families != [] ==> p.families == families) && (transports != [] ==> p.transports == transports)
            && (control.Some? ==> p.control == control.value) && (control.None? ==> Levels(p, t) == [t])
  {
    hide Known, Decode, Make, SpecFor;
  }

  // ---------------------------------------------------------------------------------------
  // Runs

  /** Without a target the policy is done, and refuses to propose. */
  lemma NothingWithoutTarget(ident: Ident, p: Factors, s: Survey, budget: nat)
    requires s.target.None?
    ensures FactorialPolicy(ident, p).done(s) && FactorialPolicy(ident, p).propose(s, budget).Failure?
  {
  }

  /** Unless it is done, the policy always has something new for the runner. */
  lemma FactorialProgress(ident: Ident, p: Factors, s: Survey, budget: nat)
    requires p.Valid() && budget > 0 && !FactorialPolicy(ident, p).done(s)
    ensures var r := FactorialPolicy(ident, p).propose(s, budget);
            r.Success? && Fresh(ident, s.observations, {}, r.value, budget) != []
  {
    hide Product;
    var exps := Product(ident, p, s.target.value);
    FreshNonempty(ident, s.observations, exps, p.maxCandidates, budget);
    FreshTwice(ident, s.observations, exps, budget);
  }

  /** A run needs at most one round: afterwards the budget is spent or everything is recorded.
      It ends because the policy is done, the budget is spent or the context is over. */
  lemma FactorialOneRound(ident: Ident, p: Factors, s: Survey, a: Attempt)
    requires p.Valid()
    ensures var r := Run(ident, FactorialPolicy(ident, p), s, a);
            && |r.final.rounds| <= |s.rounds| + 1
            && (r.why.ContextOver? || r.why.BudgetSpent? || r.why.PolicyDone?)
            && (r.why.PolicyDone? && s.target.Some? ==>
                forall e :: e in Product(ident, p, s.target.value) ==>
                  HasExperiment(r.final.observations, Normalize(ident, e).id))
  {
    hide Product, Fresh, HasExperiment, Normalize;
    var pol := FactorialPolicy(ident, p);
    var budget := InitialBudget(a.maxProbes, s);
    if s.target.Some? {
      var exps := Product(ident, p, s.target.value);
      DoneIff(ident, p, s);
      if !a.expired(0) && budget > 0 && !pol.done(s) {
        FactorialProgress(ident, p, s, budget);
        FreshTwice(ident, s.observations, exps, budget);
        var batch := Fresh(ident, s.observations, {}, exps, budget);
        assert batch != [];
        var m := Step(a.probe, s, batch);
        FreshIsSound(ident, s.observations, {}, exps, budget);
        if |batch| < budget {
          forall e | e in exps ensures HasExperiment(m.observations, Normalize(ident, e).id) {
            FreshLosesNothing(ident, s.observations, {}, exps, budget, e);
            NowRecorded(ident, a.probe, s, batch, e);
          }
          DoneIff(ident, p, m);
          assert pol.done(m);
        }
        assert Rounds(ident, pol, a.probe, a.expired, s, budget, 0)
            == Rounds(ident, pol, a.probe, a.expired, m, budget - |batch|, 1);
      }
    }
  }

  lemma DoneIff(ident: Ident, p: Factors, s: Survey)
    requires p.Valid() && s.target.Some?
    ensures FactorialPolicy(ident, p).done(s) <==>
            forall e :: e in Product(ident, p, s.target.value) ==> HasExperiment(s.observations, Normalize(ident, e).id)
  {
    hide Product;
    FreshNonempty(ident, s.observations, Product(ident, p, s.target.value), p.maxCandidates, p.maxCandidates);
  }

  lemma NowRecorded(ident: Ident, probe: Probe, s: Survey, batch: seq<Experiment>, e: Experiment)
    requires var id := Normalize(ident, e).id; HasExperiment(s.observations, id) || id in IdsOf(batch)
    ensures HasExperiment(Step(probe, s, batch).observations, Normalize(ident, e).id)
  {
    hide Step, Batch;
    var id := Normalize(ident, e).id;
    NormalizeIdempotent(ident, e);
    assert id != "" by { NormalHasId(ident, e); }
    StepIds(probe, s, batch);
    HasExperimentIsIn(s.observations, id);
    HasExperimentIsIn(Step(probe, s, batch).observations, id);
  }

  lemma NormalHasId(ident: Ident, e: Experiment)
    ensures Normalize(ident, e).id != ""
  {
    NormalizeIdempotent(ident, e);
  }
}
