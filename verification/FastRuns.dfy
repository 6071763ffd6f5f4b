/** Whole runs of the Fast policy: batching, budgets, interruptions and resumes do not change
    what is measured or in which order. */
module FastRuns {
  import opened Model
  import opened Selectors
  import opened Dedupe
  import opened Runs
  import opened Fast

  /** The tree dials TCP families in preference order. */
  ghost predicate TcpInOrder(prefer6: bool, obs: seq<Observation>) {
    match Latest(obs, LayerDNS, NoFamily)
    case None => Latest(obs, LayerTCP, IPv4).None? && Latest(obs, LayerTCP, IPv6).None?
    case Some(dns) =>
      var fams := Families(dns, prefer6);
      |fams| == 2 && Latest(obs, LayerTCP, fams[1]).Some? ==> Latest(obs, LayerTCP, fams[0]).Some?
  }

  ghost predicate Records(o: Observation, e: Experiment) {
    o.experiment == e && o.layer == e.spec.layer
  }

  lemma TreeOfOne(ident: Ident, t: Target, obs: seq<Observation>, f: Family)
    ensures MissingTcp(ident, t, obs, [f]) ==
            if Latest(obs, LayerTCP, f).None? then [Make(ident, TcpSpec(t, f))] else []
    ensures FirstTcpPass(obs, [f]) == if Passes(Latest(obs, LayerTCP, f)) then Some(f) else None
  {
    assert [f][1..] == [];
  }

  lemma TreeOfTwo(ident: Ident, t: Target, obs: seq<Observation>, f: Family, g: Family)
    ensures MissingTcp(ident, t, obs, [f, g]) ==
            (if Latest(obs, LayerTCP, f).None? then [Make(ident, TcpSpec(t, f))] else [])
            + (if Latest(obs, LayerTCP, g).None? then [Make(ident, TcpSpec(t, g))] else [])
    ensures FirstTcpPass(obs, [f, g]) ==
            if Passes(Latest(obs, LayerTCP, f)) then Some(f)
            else if Passes(Latest(obs, LayerTCP, g)) then Some(g) else None
  {
    assert [f, g][1..] == [g];
    TreeOfOne(ident, t, obs, g);
  }

  /** The heart of resumability: after the first planned experiment is recorded, with any
      outcome, the rest of the old plan is a prefix of the new plan. */
  lemma PlanTail(ident: Ident, prefer6: bool, t: Target, obs: seq<Observation>, o: Observation)
    requires TcpInOrder(prefer6, obs)
    requires Plan(ident, prefer6, t, obs) != []
    requires Records(o, Plan(ident, prefer6, t, obs)[0])
    ensures Plan(ident, prefer6, t, obs)[1..] <= Plan(ident, prefer6, t, obs + [o])
    ensures TcpInOrder(prefer6, obs + [o])
  {
    SelectorsAppend(obs, o, LayerDNS, NoFamily);
    var dns := Latest(obs, LayerDNS, NoFamily);
    if dns.None? {
      SelectorsAppend(obs, o, LayerTCP, IPv4);
      SelectorsAppend(obs, o, LayerTCP, IPv6);
    } else {
      var fams := Families(dns.value, prefer6);
      TreeTail(ident, t, obs, o, fams);
    }
  }

  /** The key an experiment is later found under. */
  lemma MadeKeys(ident: Ident, t: Target, f: Family)
    requires f != NoFamily
    ensures Keyed(MenuOf(ident, t, f), f)
  {
  }

  /** What the tree reads from the record, for up to two families. */
  datatype Slots = Slots(tcp: Option<Observation>, tls: Option<Observation>, http: Option<Observation>)

  function SlotsOf(obs: seq<Observation>, f: Family): Slots {
    Slots(Latest(obs, LayerTCP, f), Latest(obs, LayerTLS, f), Latest(obs, LayerHTTP, f))
  }

  /** The experiments the tree can run on one family. */
  datatype Menu = Menu(tcp: Experiment, quic: Experiment, tls: Experiment, http: Experiment)

  function MenuOf(ident: Ident, t: Target, f: Family): Menu {
    Menu(Make(ident, TcpSpec(t, f)), Make(ident, QuicSpec(t, f, "")),
         Make(ident, TlsSpec(t, f, "", "")), Make(ident, HttpSpec(t, f, "")))
  }

  /** The keys the experiments of a menu are later found under. */
  predicate Keyed(m: Menu, f: Family) {
    && m.tcp.spec.layer == LayerTCP && m.quic.spec.layer == LayerQUIC
    && m.tls.spec.layer == LayerTLS && m.http.spec.layer == LayerHTTP
    && m.tcp.spec.family == m.quic.spec.family == m.tls.spec.family == m.http.spec.family == f
  }

  function AppNext(https: bool, m: Menu, s: Slots): seq<Experiment> {
    if !Passes(s.tcp) then []
    else if https && s.tls.None? then [m.tls]
    else if (!https || Passes(s.tls)) && s.http.None? then [m.http]
    else []
  }

  function TcpNext(m: Menu, s: Slots): seq<Experiment> {
    if s.tcp.None? then [m.tcp] else []
  }

  function QuicNext(https: bool, m: Menu, quic: Option<Observation>): seq<Experiment> {
    if https && quic.None? then [m.quic] else []
  }

  function NextOne(https: bool, m: Menu, s: Slots, quic: Option<Observation>): seq<Experiment> {
    TcpNext(m, s) + QuicNext(https, m, quic) + AppNext(https, m, s)
  }

  function NextTwo(https: bool, m: Menu, n: Menu, s: Slots, r: Slots, quic: Option<Observation>): seq<Experiment> {
    TcpNext(m, s) + TcpNext(n, r) + QuicNext(https, m, quic)
    + if Passes(s.tcp) then AppNext(https, m, s) else AppNext(https, n, r)
  }

  lemma TreeReadsSlots(ident: Ident, t: Target, obs: seq<Observation>, f: Family, g: Family)
    ensures var m, n := MenuOf(ident, t, f), MenuOf(ident, t, g);
            && Tree(ident, t, obs, [f]) == NextOne(t.IsHTTPS(), m, SlotsOf(obs, f), Latest(obs, LayerQUIC, f))
            && Tree(ident, t, obs, [f, g]) ==
               NextTwo(t.IsHTTPS(), m, n, SlotsOf(obs, f), SlotsOf(obs, g), Latest(obs, LayerQUIC, f))
  {
    hide Tree, NextOne, NextTwo, MenuOf, SlotsOf, Latest;
    OneReadsSlots(ident, t, obs, f);
    TwoReadSlots(ident, t, obs, f, g);
  }

  lemma OneReadsSlots(ident: Ident, t: Target, obs: seq<Observation>, f: Family)
    ensures Tree(ident, t, obs, [f])
            == NextOne(t.IsHTTPS(), MenuOf(ident, t, f), SlotsOf(obs, f), Latest(obs, LayerQUIC, f))
  {
    hide Make, TcpSpec, TlsSpec, QuicSpec, HttpSpec, Latest;
    TreeOfOne(ident, t, obs, f);
  }

  lemma TwoReadSlots(ident: Ident, t: Target, obs: seq<Observation>, f: Family, g: Family)
    ensures Tree(ident, t, obs, [f, g])
            == NextTwo(t.IsHTTPS(), MenuOf(ident, t, f), MenuOf(ident, t, g), SlotsOf(obs, f), SlotsOf(obs, g),
                       Latest(obs, LayerQUIC, f))
  {
    hide Make, TcpSpec, TlsSpec, QuicSpec, HttpSpec, Latest, MissingTcp, FirstTcpPass;
    TreeOfTwo(ident, t, obs, f, g);
  }

  function Write(s: Slots, o: Observation, f: Family): Slots {
    if o.experiment.spec.family != f then s
    else match o.layer
      case LayerTCP => s.(tcp := Some(o))
      case LayerTLS => s.(tls := Some(o))
      case LayerHTTP => s.(http := Some(o))
      case _ => s
  }

  function WriteQuic(quic: Option<Observation>, o: Observation, f: Family): Option<Observation> {
    if o.layer == LayerQUIC && o.experiment.spec.family == f then Some(o) else quic
  }

  lemma SlotsAppend(obs: seq<Observation>, o: Observation, f: Family)
    requires f != NoFamily
    ensures SlotsOf(obs + [o], f) == Write(SlotsOf(obs, f), o, f)
    ensures Latest(obs + [o], LayerQUIC, f) == WriteQuic(Latest(obs, LayerQUIC, f), o, f)
  {
    LatestAppend(obs, o, LayerTCP, f);
    LatestAppend(obs, o, LayerTLS, f);
    LatestAppend(obs, o, LayerHTTP, f);
    LatestAppend(obs, o, LayerQUIC, f);
  }

  lemma TailOne(https: bool, m: Menu, f: Family, s: Slots, quic: Option<Observation>, o: Observation)
    requires Keyed(m, f)
    requires NextOne(https, m, s, quic) != [] && Records(o, NextOne(https, m, s, quic)[0])
    ensures NextOne(https, m, s, quic)[1..] <= NextOne(https, m, Write(s, o, f), WriteQuic(quic, o, f))
    ensures o.layer != LayerDNS
  {
  }

  lemma TailTwo(https: bool, m: Menu, n: Menu, f: Family, g: Family,
                s: Slots, r: Slots, quic: Option<Observation>, o: Observation)
    requires Keyed(m, f) && Keyed(n, g) && f != g
    requires r.tcp.Some? ==> s.tcp.Some?
    requires NextTwo(https, m, n, s, r, quic) != [] && Records(o, NextTwo(https, m, n, s, r, quic)[0])
    ensures NextTwo(https, m, n, s, r, quic)[1..] <=
            NextTwo(https, m, n, Write(s, o, f), Write(r, o, g), WriteQuic(quic, o, f))
    ensures Write(r, o, g).tcp.Some? ==> Write(s, o, f).tcp.Some?
    ensures o.layer != LayerDNS
  {
    var plan := NextTwo(https, m, n, s, r, quic);
    if s.tcp.None? {
      assert plan[0] == m.tcp;
    } else if r.tcp.None? {
      assert plan[0] == n.tcp;
    } else if https && quic.None? {
      assert plan[0] == m.quic;
    } else {
      assert |plan| == 1;
    }
  }

  lemma TreeTail(ident: Ident, t: Target, obs: seq<Observation>, o: Observation, fams: seq<Family>)
    requires fams == [IPv4] || fams == [IPv6] || fams == [IPv4, IPv6] || fams == [IPv6, IPv4]
    requires |fams| == 2 && Latest(obs, LayerTCP, fams[1]).Some? ==> Latest(obs, LayerTCP, fams[0]).Some?
    requires Tree(ident, t, obs, fams) != []
    requires Records(o, Tree(ident, t, obs, fams)[0])
    ensures o.layer != LayerDNS
    ensures Tree(ident, t, obs, fams)[1..] <= Tree(ident, t, obs + [o], fams)
    ensures |fams| == 2 && Latest(obs + [o], LayerTCP, fams[1]).Some? ==>
              Latest(obs + [o], LayerTCP, fams[0]).Some?
  {
    var f := fams[0];
    var g := if |fams| == 2 then fams[1] else fams[0];
    var m, n := MenuOf(ident, t, f), MenuOf(ident, t, g);
    SlotsAppend(obs, o, f);
    SlotsAppend(obs, o, g);
    TreeReadsSlots(ident, t, obs, f, g);
    TreeReadsSlots(ident, t, obs + [o], f, g);
    if |fams| == 1 {
      assert fams == [f];
      TailOne(t.IsHTTPS(), m, f, SlotsOf(obs, f), Latest(obs, LayerQUIC, f), o);
    } else {
      assert fams == [f, g];
      TailTwo(t.IsHTTPS(), m, n, f, g, SlotsOf(obs, f), SlotsOf(obs, g), Latest(obs, LayerQUIC, f), o);
    }
  }

  // ---------------------------------------------------------------------------------------
  // Planned experiments are never recorded yet

  ghost predicate DistinctKeys(exps: seq<Experiment>) {
    forall i, j :: 0 <= i < j < |exps| ==>
      exps[i].spec.layer != exps[j].spec.layer || exps[i].spec.family != exps[j].spec.family
  }

  lemma NextHasDistinctKeys(https: bool, m: Menu, n: Menu, f: Family, g: Family,
                            s: Slots, r: Slots, quic: Option<Observation>)
    requires Keyed(m, f) && Keyed(n, g) && f != g
    ensures DistinctKeys(NextOne(https, m, s, quic))
    ensures DistinctKeys(NextTwo(https, m, n, s, r, quic))
  {
    var a, b, c := TcpNext(m, s), TcpNext(n, r), QuicNext(https, m, quic);
    var x, y := AppNext(https, m, s), AppNext(https, n, r);
    hide DistinctKeys;
    SmallIsDistinct(a);
    SmallIsDistinct(b);
    SmallIsDistinct(c);
    SmallIsDistinct(x);
    SmallIsDistinct(y);
    DistinctConcat(a, c);
    DistinctConcat(a + c, x);
    DistinctConcat(a, b);
    DistinctConcat(a + b, c);
    DistinctConcat(a + b + c, if Passes(s.tcp) then x else y);
  }

  lemma SmallIsDistinct(a: seq<Experiment>)
    requires |a| <= 1
    ensures DistinctKeys(a)
  {
  }

  lemma DistinctConcat(a: seq<Experiment>, b: seq<Experiment>)
    requires DistinctKeys(a) && DistinctKeys(b)
    requires forall x, y :: x in a && y in b ==>
               x.spec.layer != y.spec.layer || x.spec.family != y.spec.family
    ensures DistinctKeys(a + b)
  {
  }

  /** Every planned experiment is in the tree's universe and its key is not recorded. */
  lemma PlanElement(ident: Ident, prefer6: bool, t: Target, obs: seq<Observation>, e: Experiment)
    requires e in Plan(ident, prefer6, t, obs)
    ensures exists s :: s in FastSpecs(t) && e == Make(ident, s)
    ensures e.spec.family != NoFamily
    ensures Latest(obs, e.spec.layer, e.spec.family).None?
  {
    hide Make, Latest, Tree, TcpSpec, TlsSpec, QuicSpec, HttpSpec, ResolvedFamilies, OrderedFamilies, FromMenu, SlotsOf, MenuOf, FamilySpecs;
    var dns := Latest(obs, LayerDNS, NoFamily);
    if dns.None? {
      LatestMeaning(obs, LayerDNS, NoFamily);
      LatestMeaning(obs, LayerDNS, FamilyAny);
      MadeIsNormal(ident, t, DnsSpec(t, ResolverSystem));
    } else {
      var fams := Families(dns.value, prefer6);
      TreeElement(ident, t, obs, fams, e);
      var f :| f in fams && FromMenu(MenuOf(ident, t, f), SlotsOf(obs, f), Latest(obs, LayerQUIC, f), e);
      MenuElement(ident, t, obs, f, e);
      var s :| s in FamilySpecs(t, f) && e == Make(ident, s);
      assert f == IPv4 || f == IPv6;
      assert s in FastSpecs(t);
    }
  }

  /** `e` is an experiment of the menu whose slot is empty. */
  ghost predicate FromMenu(m: Menu, s: Slots, quic: Option<Observation>, e: Experiment) {
    || (e == m.tcp && s.tcp.None?)
    || (e == m.quic && quic.None?)
    || (e == m.tls && s.tls.None?)
    || (e == m.http && s.http.None?)
  }

  lemma NextComesFromMenus(https: bool, m: Menu, n: Menu, s: Slots, r: Slots,
                           quic: Option<Observation>, other: Option<Observation>, e: Experiment)
    ensures e in NextOne(https, m, s, quic) ==> FromMenu(m, s, quic, e)
    ensures e in NextTwo(https, m, n, s, r, quic) ==> FromMenu(m, s, quic, e) || FromMenu(n, r, other, e)
  {
  }

  lemma MenuElement(ident: Ident, t: Target, obs: seq<Observation>, f: Family, e: Experiment)
    requires f != NoFamily
    requires FromMenu(MenuOf(ident, t, f), SlotsOf(obs, f), Latest(obs, LayerQUIC, f), e)
    ensures exists s :: s in FamilySpecs(t, f) && e == Make(ident, s)
    ensures e.spec.family == f && Latest(obs, e.spec.layer, e.spec.family).None?
  {
    hide Make, Latest, TcpSpec, TlsSpec, QuicSpec, HttpSpec;
    MadeKeys(ident, t, f);
    assert TcpSpec(t, f) in FamilySpecs(t, f) && QuicSpec(t, f, "") in FamilySpecs(t, f);
    assert TlsSpec(t, f, "", "") in FamilySpecs(t, f) && HttpSpec(t, f, "") in FamilySpecs(t, f);
  }

  lemma TreeElement(ident: Ident, t: Target, obs: seq<Observation>, fams: seq<Family>, e: Experiment)
    requires fams == [] || fams == [IPv4] || fams == [IPv6] || fams == [IPv4, IPv6] || fams == [IPv6, IPv4]
    requires e in Tree(ident, t, obs, fams)
    ensures exists f :: f in fams && FromMenu(MenuOf(ident, t, f), SlotsOf(obs, f), Latest(obs, LayerQUIC, f), e)
  {
    hide Make, Latest, TcpSpec, TlsSpec, QuicSpec, HttpSpec, FromMenu, NextOne, NextTwo, SlotsOf, MenuOf;
    var f := fams[0];
    var g := if |fams| == 2 then fams[1] else fams[0];
    TreeReadsSlots(ident, t, obs, f, g);
    assert fams == [f] || fams == [f, g];
    NextComesFromMenus(t.IsHTTPS(), MenuOf(ident, t, f), MenuOf(ident, t, g), SlotsOf(obs, f), SlotsOf(obs, g),
                       Latest(obs, LayerQUIC, f), Latest(obs, LayerQUIC, g), e);
    assert f in fams && g in fams;
  }

  lemma NoTree(ident: Ident, t: Target, obs: seq<Observation>)
    ensures Tree(ident, t, obs, []) == []
  {
  }

  lemma PlanHasDistinctKeys(ident: Ident, prefer6: bool, t: Target, obs: seq<Observation>)
    ensures DistinctKeys(Plan(ident, prefer6, t, obs))
  {
    hide Make, DnsSpec, TcpSpec, TlsSpec, QuicSpec, HttpSpec, Latest, Tree, NextOne, NextTwo, SlotsOf;
    var dns := Latest(obs, LayerDNS, NoFamily);
    if dns.Some? && dns.value.status == Pass {
      var fams := Families(dns.value, prefer6);
      if |fams| == 0 {
        NoTree(ident, t, obs);
      } else {
        var f := fams[0];
        var g := if f == IPv4 then IPv6 else IPv4;
        TreeReadsSlots(ident, t, obs, f, g);
        MadeKeys(ident, t, f);
        MadeKeys(ident, t, g);
        NextHasDistinctKeys(t.IsHTTPS(), MenuOf(ident, t, f), MenuOf(ident, t, g), f, g,
                            SlotsOf(obs, f), SlotsOf(obs, g), Latest(obs, LayerQUIC, f));
        assert fams == [f] || fams == [f, g];
      }
    }
  }

  /** On a well-formed record whose experiments do not collide with the tree's, the whole plan
      is new: deduplication only caps it. */
  lemma PlanIsNew(ident: Ident, prefer6: bool, t: Target, obs: seq<Observation>, known: set<Spec>)
    requires WellFormed(ident, obs) && Specs(obs) <= known && FastSpecs(t) <= known && NoCollision(ident, known)
    ensures var plan := Plan(ident, prefer6, t, obs);
            Normal(ident, plan) && DistinctIds(plan) && Unrecorded(obs, {}, plan)
  {
    hide Make, Latest, Plan, FastSpecs, Normalize;
    var plan := Plan(ident, prefer6, t, obs);
    forall e | e in plan
      ensures Normalize(ident, e) == e && e.id != "" && !HasExperiment(obs, e.id)
      ensures e.id == ident(e.spec) && e.spec in known
    {
      PlanElement(ident, prefer6, t, obs, e);
      var s :| s in FastSpecs(t) && e == Make(ident, s);
      MadeIsNormal(ident, t, s);
      if HasExperiment(obs, e.id) {
        var i :| 0 <= i < |obs| && obs[i].experiment.id == e.id;
        assert obs[i] in obs;
        assert obs[i].experiment.spec in Specs(obs);
        LatestMeaning(obs, e.spec.layer, e.spec.family);
        assert false;
      }
    }
    PlanHasDistinctKeys(ident, prefer6, t, obs);
  }

  lemma MadeIsNormal(ident: Ident, t: Target, s: Spec)
    requires s in FastSpecs(t)
    ensures var e := Make(ident, s);
            e.spec == s && e.id == ident(s) && Normalize(ident, e) == e && e.id != ""
  {
  }

  /** The policy's proposal, after the runner's own deduplication. */
  lemma FastProposal(ident: Ident, prefer6: bool, t: Target, s: Survey, known: set<Spec>, budget: nat)
    requires s.target == Some(t)
    requires WellFormed(ident, s.observations) && Specs(s.observations) <= known
    requires FastSpecs(t) <= known && NoCollision(ident, known)
    ensures var plan := Plan(ident, prefer6, t, s.observations);
            var proposed := FastPolicy(ident, prefer6).propose(s, budget);
            && proposed.Success?
            && Fresh(ident, s.observations, {}, proposed.value, budget) ==
               plan[..if budget < |plan| then budget else |plan|]
  {
    var plan := Plan(ident, prefer6, t, s.observations);
    PlanIsNew(ident, prefer6, t, s.observations, known);
    FreshKeeps(ident, s.observations, {}, plan, budget);
    FreshTwice(ident, s.observations, plan, budget);
  }

  // ---------------------------------------------------------------------------------------
  // Every run is the one-experiment-at-a-time run, cut off somewhere

  /** Observation `i` is what the tree asks for first on the record before it. */
  ghost predicate GreedyAt(ident: Ident, prefer6: bool, t: Target, before: seq<Observation>, o: Observation) {
    var plan := Plan(ident, prefer6, t, before);
    plan != [] && Records(o, plan[0])
  }

  ghost predicate Greedy(ident: Ident, prefer6: bool, t: Target, from: nat, obs: seq<Observation>) {
    forall i :: from <= i < |obs| ==> GreedyAt(ident, prefer6, t, obs[..i], obs[i])
  }

  lemma GreedyAppend(ident: Ident, prefer6: bool, t: Target, from: nat, obs: seq<Observation>, o: Observation)
    requires Greedy(ident, prefer6, t, from, obs) && GreedyAt(ident, prefer6, t, obs, o)
    ensures Greedy(ident, prefer6, t, from, obs + [o])
  {
    hide GreedyAt;
    forall i | from <= i < |obs + [o]| ensures GreedyAt(ident, prefer6, t, (obs + [o])[..i], (obs + [o])[i]) {
      if i < |obs| {
        assert (obs + [o])[..i] == obs[..i];
      } else {
        assert (obs + [o])[..i] == obs;
      }
    }
  }

  /** Recording any prefix of the plan as one batch, with any outcomes, is greedy. */
  lemma {:induction false} BatchIsGreedy(ident: Ident, prefer6: bool, t: Target, from: nat,
                                         obs: seq<Observation>, probe: Probe, batch: seq<Experiment>)
    requires Greedy(ident, prefer6, t, from, obs) && TcpInOrder(prefer6, obs)
    requires batch <= Plan(ident, prefer6, t, obs)
    ensures var done := obs + Batch(probe, |obs|, batch);
            && Greedy(ident, prefer6, t, from, done) && TcpInOrder(prefer6, done)
            && Plan(ident, prefer6, t, obs)[|batch|..] <= Plan(ident, prefer6, t, done)
    decreases |batch|
  {
    hide Plan, TcpInOrder, Greedy;
    if |batch| == 0 {
      assert obs + Batch(probe, |obs|, batch) == obs;
    } else {
      var n := |batch| - 1;
      BatchIsGreedy(ident, prefer6, t, from, obs, probe, batch[..n]);
      var mid := obs + Batch(probe, |obs|, batch[..n]);
      var o := RunOne(probe, |obs| + n, batch[n]);
      assert obs + Batch(probe, |obs|, batch) == mid + [o];
      assert Plan(ident, prefer6, t, obs)[n..][0] == batch[n];
      PlanTail(ident, prefer6, t, mid, o);
      GreedyAppend(ident, prefer6, t, from, mid, o);
      assert Plan(ident, prefer6, t, obs)[n..][1..] == Plan(ident, prefer6, t, obs)[n + 1..];
    }
  }

  /** What every state of a Fast survey satisfies. `base` is the record it started from. */
  ghost predicate FastState(ident: Ident, prefer6: bool, t: Target, known: set<Spec>,
                            base: seq<Observation>, s: Survey)
  {
    && s.target == Some(t)
    && base <= s.observations
    && WellFormed(ident, s.observations) && Specs(s.observations) <= known
    && TcpInOrder(prefer6, s.observations)
    && Greedy(ident, prefer6, t, |base|, s.observations)
  }

  /** A well-formed record of known experiments, of a survey of `t`. */
  ghost predicate KnownState(ident: Ident, t: Target, known: set<Spec>, s: Survey) {
    && s.target == Some(t)
    && WellFormed(ident, s.observations) && Specs(s.observations) <= known
  }

  ghost predicate Admissible(ident: Ident, t: Target, known: set<Spec>) {
    FastSpecs(t) <= known && NoCollision(ident, known)
  }

  lemma BatchIsWellFormed(ident: Ident, prefer6: bool, t: Target, known: set<Spec>,
                          obs: seq<Observation>, probe: Probe, batch: seq<Experiment>)
    requires FastSpecs(t) <= known && WellFormed(ident, obs) && Specs(obs) <= known
    requires batch <= Plan(ident, prefer6, t, obs)
    ensures var done := obs + Batch(probe, |obs|, batch);
            WellFormed(ident, done) && Specs(done) <= known
  {
    hide Plan, FastSpecs, Make, Latest;
    var more := Batch(probe, |obs|, batch);
    forall o | o in obs + more
      ensures o.layer == o.experiment.spec.layer && o.experiment.id == ident(o.experiment.spec)
      ensures o.experiment.spec in known
    {
      if o in obs {
        assert o.experiment.spec in Specs(obs);
      } else {
        var i :| 0 <= i < |more| && more[i] == o;
        var e := batch[i];
        assert Plan(ident, prefer6, t, obs)[i] == e;
        PlanElement(ident, prefer6, t, obs, e);
        var s :| s in FastSpecs(t) && e == Make(ident, s);
        MadeIsNormal(ident, t, s);
      }
    }
  }

  lemma FastStep(ident: Ident, prefer6: bool, t: Target, known: set<Spec>, base: seq<Observation>,
                 s: Survey, probe: Probe, budget: nat)
    requires FastState(ident, prefer6, t, known, base, s) && Admissible(ident, t, known)
    ensures var pol := FastPolicy(ident, prefer6);
            pol.propose(s, budget).Success? &&
            FastState(ident, prefer6, t, known, base,
                      Step(probe, s, Fresh(ident, s.observations, {}, pol.propose(s, budget).value, budget)))
  {
    hide Plan, TcpInOrder, Greedy, FastSpecs, WellFormed;
    FastProposal(ident, prefer6, t, s, known, budget);
    var plan := Plan(ident, prefer6, t, s.observations);
    var batch := plan[..if budget < |plan| then budget else |plan|];
    BatchIsGreedy(ident, prefer6, t, |base|, s.observations, probe, batch);
    BatchIsWellFormed(ident, prefer6, t, known, s.observations, probe, batch);
  }

  /** Every run of the Fast policy, with any budget, any stop and any outcomes, keeps the state
      greedy. */
  lemma FastRunKeeps(ident: Ident, prefer6: bool, t: Target, known: set<Spec>, base: seq<Observation>,
                     s: Survey, a: Attempt)
    requires FastState(ident, prefer6, t, known, base, s) && Admissible(ident, t, known)
    ensures FastState(ident, prefer6, t, known, base, Run(ident, FastPolicy(ident, prefer6), s, a).final)
  {
    hide FastState, FastPolicy;
    var pol := FastPolicy(ident, prefer6);
    var inv := (st: Survey) => FastState(ident, prefer6, t, known, base, st);
    forall st: Survey, b: nat | inv(st) && 0 < b && !pol.done(st) && pol.propose(st, b).Success?
      ensures inv(Step(a.probe, st, Fresh(ident, st.observations, {}, pol.propose(st, b).value, b)))
    {
      FastStep(ident, prefer6, t, known, base, st, a.probe, b);
    }
    RoundsKeep(ident, pol, a.probe, a.expired, s, InitialBudget(a.maxProbes, s), 0, inv);
  }

  lemma {:induction false} FastResumesKeep(ident: Ident, prefer6: bool, t: Target, known: set<Spec>,
                                           base: seq<Observation>, s: Survey, runs: seq<Attempt>)
    requires FastState(ident, prefer6, t, known, base, s) && Admissible(ident, t, known)
    ensures FastState(ident, prefer6, t, known, base, Resumes(ident, FastPolicy(ident, prefer6), s, runs))
    decreases runs
  {
    hide FastState, FastPolicy, Admissible, Run;
    if |runs| > 0 {
      FastRunKeeps(ident, prefer6, t, known, base, s, runs[0]);
      FastResumesKeep(ident, prefer6, t, known, base,
                      Run(ident, FastPolicy(ident, prefer6), s, runs[0]).final, runs[1..]);
    }
  }
}
