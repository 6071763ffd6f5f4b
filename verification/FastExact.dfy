/** What the Fast tree plans, read off the record alone: which addresses the DNS answer lists, what
    was probed and what passed. */
module FastExact {
  import opened Model
  import opened Selectors
  import opened Fast
  import opened FastRuns

  // ---------------------------------------------------------------------------------------
  // Families

  /** The answer's values list an address of the family. */
  ghost predicate Lists(values: map<string, Value>, f: Family) {
    || (f == IPv4 && "v4" in values && values["v4"].Texts? && values["v4"].texts != [])
    || (f == IPv6 && "v6" in values && values["v6"].Texts? && values["v6"].texts != [])
  }

  /** The first answer lists an address of the family; without an answer IPv4 is presumed. */
  ghost predicate Announced(d: Observation, f: Family) {
    || (exists i: nat :: FirstAt(d.evidence, KindDNSAnswer, i) && Lists(d.evidence[i].values, f))
    || (f == IPv4 && forall e :: e in d.evidence ==> e.kind != KindDNSAnswer)
  }

  function Favourite(prefer6: bool): Family { if prefer6 then IPv6 else IPv4 }

  /** The preferred family, or the only one. */
  ghost predicate Leads(prefer6: bool, d: Observation, f: Family) {
    Announced(d, f) && (f == Favourite(prefer6) || forall g :: Announced(d, g) ==> g == f)
  }

  lemma AnnouncedAre(d: Observation, f: Family)
    ensures Announced(d, f) ==> f == IPv4 || f == IPv6
  {
  }

  lemma AnswerDecides(d: Observation, i: nat, f: Family)
    requires FirstAt(d.evidence, KindDNSAnswer, i)
    ensures Announced(d, f) <==> Lists(d.evidence[i].values, f)
  {
    assert d.evidence[i] in d.evidence;
  }

  lemma ResolvedMeaning(d: Observation)
    ensures ResolvedFamilies(d) == (Announced(d, IPv4), Announced(d, IPv6))
  {
    FirstEvidenceMeaning(d.evidence, KindDNSAnswer);
    if FirstEvidence(d.evidence, KindDNSAnswer).Some? {
      var i: nat :| FirstAt(d.evidence, KindDNSAnswer, i) && d.evidence[i] == FirstEvidence(d.evidence, KindDNSAnswer).value;
      AnswerDecides(d, i, IPv4);
      AnswerDecides(d, i, IPv6);
    }
  }

  /** The tree's families are the announced ones, the leading one first. */
  lemma FamiliesMeaning(d: Observation, prefer6: bool)
    ensures var fams := Families(d, prefer6);
            && (forall f :: f in fams <==> Announced(d, f))
            && (fams != [] ==> forall f :: Leads(prefer6, d, f) <==> f == fams[0])
            && |fams| <= 2 && (|fams| == 2 ==> fams[0] != fams[1])
  {
    hide ResolvedFamilies, Announced;
    ResolvedMeaning(d);
    forall f ensures Announced(d, f) ==> f == IPv4 || f == IPv6 { AnnouncedAre(d, f); }
  }

  // ---------------------------------------------------------------------------------------
  // The plan

  /** The target speaks TLS: it has no URL, or one with the scheme https or none. */
  predicate Secure(t: Target) {
    match t.url
    case None => true
    case Some(url) => url.scheme in ["", "https"]
  }

  lemma SecureIs(t: Target)
    ensures t.IsHTTPS() <==> Secure(t)
  {
  }

  /** The tree goes on over `f`: TCP passed on it, and on no announced family before it. */
  ghost predicate Connects(prefer6: bool, obs: seq<Observation>, d: Observation, f: Family) {
    && Announced(d, f) && Passes(Latest(obs, LayerTCP, f))
    && (Leads(prefer6, d, f) || forall g :: Leads(prefer6, d, g) ==> !Passes(Latest(obs, LayerTCP, g)))
  }

  /** What is due on one announced family. */
  ghost predicate DueOn(ident: Ident, prefer6: bool, t: Target, obs: seq<Observation>, d: Observation, f: Family, e: Experiment) {
    || (e == Make(ident, TcpSpec(t, f)) && Announced(d, f) && !HasKey(obs, LayerTCP, f))
    || (e == Make(ident, QuicSpec(t, f, "")) && Secure(t) && Leads(prefer6, d, f) && !HasKey(obs, LayerQUIC, f))
    || (&& e == Make(ident, TlsSpec(t, f, "", "")) && Secure(t) && Connects(prefer6, obs, d, f)
        && !HasKey(obs, LayerTLS, f))
    || (&& e == Make(ident, HttpSpec(t, f, "")) && Connects(prefer6, obs, d, f) && !HasKey(obs, LayerHTTP, f)
        && (Secure(t) ==> Passes(Latest(obs, LayerTLS, f))))
  }

  /** What is due on a record. */
  ghost predicate Due(ident: Ident, prefer6: bool, t: Target, obs: seq<Observation>, e: Experiment) {
    match Latest(obs, LayerDNS, NoFamily)
    case None => e == Make(ident, DnsSpec(t, ResolverSystem))
    case Some(d) => d.status == Pass && exists f :: DueOn(ident, prefer6, t, obs, d, f, e)
  }

  lemma LatestIsThere(obs: seq<Observation>, layer: Layer, f: Family)
    ensures Latest(obs, layer, f).Some? <==> HasKey(obs, layer, f)
  {
    hide Latest;
    LatestMeaning(obs, layer, f);
  }

  lemma SlotsAreThere(obs: seq<Observation>, f: Family)
    ensures var s := SlotsOf(obs, f);
            && (s.tcp.Some? <==> HasKey(obs, LayerTCP, f)) && (s.tls.Some? <==> HasKey(obs, LayerTLS, f))
            && (s.http.Some? <==> HasKey(obs, LayerHTTP, f))
  {
    hide Latest, HasKey;
    LatestIsThere(obs, LayerTCP, f);
    LatestIsThere(obs, LayerTLS, f);
    LatestIsThere(obs, LayerHTTP, f);
  }

  /** What is due of one family's menu. */
  ghost predicate Served(https: bool, m: Menu, s: Slots, quic: bool, connects: bool, e: Experiment) {
    || (e == m.tcp && s.tcp.None?)
    || (e == m.quic && https && quic)
    || (e == m.tls && https && connects && s.tls.None?)
    || (e == m.http && connects && s.http.None? && (https ==> Passes(s.tls)))
  }

  lemma ServedMeans(ident: Ident, prefer6: bool, t: Target, obs: seq<Observation>, d: Observation, f: Family, e: Experiment)
    requires Announced(d, f)
    ensures DueOn(ident, prefer6, t, obs, d, f, e) <==>
            Served(Secure(t), MenuOf(ident, t, f), SlotsOf(obs, f), Leads(prefer6, d, f) && Latest(obs, LayerQUIC, f).None?,
                   Connects(prefer6, obs, d, f), e)
  {
    hide Make, TcpSpec, TlsSpec, QuicSpec, HttpSpec, Latest, HasKey, Announced, Leads, Connects;
    SecureIs(t);
    SlotsAreThere(obs, f);
    LatestIsThere(obs, LayerQUIC, f);
  }

  lemma PartsServe(https: bool, m: Menu, s: Slots, quic: Option<Observation>, e: Experiment)
    ensures e in TcpNext(m, s) <==> e == m.tcp && s.tcp.None?
    ensures e in QuicNext(https, m, quic) <==> e == m.quic && https && quic.None?
    ensures e in AppNext(https, m, s) <==>
            Passes(s.tcp) && (|| (e == m.tls && https && s.tls.None?)
                              || (e == m.http && s.http.None? && (https ==> Passes(s.tls))))
  {
  }

  lemma OneServes(https: bool, m: Menu, s: Slots, quic: Option<Observation>, e: Experiment)
    ensures e in NextOne(https, m, s, quic) <==> Served(https, m, s, quic.None?, Passes(s.tcp), e)
  {
    hide TcpNext, QuicNext, AppNext, Passes;
    PartsServe(https, m, s, quic, e);
  }

  lemma TwoServe(https: bool, m: Menu, n: Menu, s: Slots, r: Slots, quic: Option<Observation>, e: Experiment)
    ensures e in NextTwo(https, m, n, s, r, quic) <==>
            || Served(https, m, s, quic.None?, Passes(s.tcp), e)
            || Served(https, n, r, false, Passes(r.tcp) && !Passes(s.tcp), e)
  {
    hide TcpNext, QuicNext, AppNext, Passes;
    PartsServe(https, m, s, quic, e);
    PartsServe(https, n, r, quic, e);
  }

  lemma ConnectsIs(prefer6: bool, obs: seq<Observation>, d: Observation, f: Family, lead: Family)
    requires Announced(d, f) && forall g :: Leads(prefer6, d, g) <==> g == lead
    ensures Connects(prefer6, obs, d, f) <==>
            Passes(Latest(obs, LayerTCP, f)) && (f == lead || !Passes(Latest(obs, LayerTCP, lead)))
  {
    hide Announced, Leads, Latest;
    assert Leads(prefer6, d, lead);
  }

  lemma TreeDue(ident: Ident, prefer6: bool, t: Target, obs: seq<Observation>, d: Observation, e: Experiment)
    ensures e in Tree(ident, t, obs, Families(d, prefer6)) <==> exists f :: DueOn(ident, prefer6, t, obs, d, f, e)
  {
    hide Tree, NextOne, NextTwo, MenuOf, SlotsOf, Latest, Families, Served, DueOn, Announced, Leads, Connects;
    SecureIs(t);
    var fams := Families(d, prefer6);
    FamiliesMeaning(d, prefer6);
    forall f ensures DueOn(ident, prefer6, t, obs, d, f, e) ==> Announced(d, f) { DueIsAnnounced(ident, prefer6, t, obs, d, f, e); }
    if fams == [] {
      assert Tree(ident, t, obs, []) == [] by { NoTree(ident, t, obs); }
    } else {
      var f, g := fams[0], if |fams| == 2 then fams[1] else fams[0];
      TreeReadsSlots(ident, t, obs, f, g);
      ServedMeans(ident, prefer6, t, obs, d, f, e);
      ServedMeans(ident, prefer6, t, obs, d, g, e);
      ConnectsIs(prefer6, obs, d, f, f);
      ConnectsIs(prefer6, obs, d, g, f);
      OneServes(Secure(t), MenuOf(ident, t, f), SlotsOf(obs, f), Latest(obs, LayerQUIC, f), e);
      TwoServe(Secure(t), MenuOf(ident, t, f), MenuOf(ident, t, g), SlotsOf(obs, f), SlotsOf(obs, g),
               Latest(obs, LayerQUIC, f), e);
      SlotsHoldTcp(obs, f);
      SlotsHoldTcp(obs, g);
      assert fams == if |fams| == 2 then [f, g] else [f];
      assert Announced(d, f) && Announced(d, g);
      assert forall x :: Announced(d, x) ==> x == f || x == g;
    }
  }

  lemma SlotsHoldTcp(obs: seq<Observation>, f: Family)
    ensures SlotsOf(obs, f).tcp == Latest(obs, LayerTCP, f)
  {
  }

  lemma NoTree(ident: Ident, t: Target, obs: seq<Observation>)
    ensures Tree(ident, t, obs, []) == []
  {
  }

  lemma DueIsAnnounced(ident: Ident, prefer6: bool, t: Target, obs: seq<Observation>, d: Observation, f: Family, e: Experiment)
    ensures DueOn(ident, prefer6, t, obs, d, f, e) ==> Announced(d, f)
  {
    hide Announced, Make, TcpSpec, TlsSpec, QuicSpec, HttpSpec, Latest, HasKey;
  }

  /** The plan holds exactly what is due: DNS first; once it passed, TCP on every announced family
      that has none, QUIC on the leading family of an https target, and TLS and HTTP over the first
      family that TCP passes on, each after its prerequisite and none of them twice. */
  lemma PlannedIff(ident: Ident, prefer6: bool, t: Target, obs: seq<Observation>, e: Experiment)
    ensures e in Plan(ident, prefer6, t, obs) <==> Due(ident, prefer6, t, obs, e)
  {
    hide Tree, Families, DueOn, Latest, Make, DnsSpec;
    var dns := Latest(obs, LayerDNS, NoFamily);
    if dns.Some? { TreeDue(ident, prefer6, t, obs, dns.value, e); }
  }

  // ---------------------------------------------------------------------------------------
  // What the answer decides

  /** Something is planned on the layer and family. */
  ghost predicate PlannedOn(ident: Ident, prefer6: bool, t: Target, obs: seq<Observation>, layer: Layer, f: Family) {
    exists e :: e in Plan(ident, prefer6, t, obs) && e.spec.layer == layer && e.spec.family == f
  }

  lemma DueKeys(ident: Ident, prefer6: bool, t: Target, obs: seq<Observation>, d: Observation, f: Family, e: Experiment)
    requires DueOn(ident, prefer6, t, obs, d, f, e)
    ensures e.spec.family == f && (f == IPv4 || f == IPv6)
    ensures e.spec.layer == LayerTCP ==> !HasKey(obs, LayerTCP, f)
    ensures e.spec.layer == LayerQUIC ==> Secure(t) && Leads(prefer6, d, f) && !HasKey(obs, LayerQUIC, f)
  {
    hide Make, TcpSpec, TlsSpec, QuicSpec, HttpSpec, Latest, HasKey, Announced, Leads, Connects;
    DueIsAnnounced(ident, prefer6, t, obs, d, f, e);
    AnnouncedAre(d, f);
    MadeSpec(ident, TcpSpec(t, f));
    MadeSpec(ident, QuicSpec(t, f, ""));
    MadeSpec(ident, TlsSpec(t, f, "", ""));
    MadeSpec(ident, HttpSpec(t, f, ""));
  }

  lemma ConnectDue(ident: Ident, prefer6: bool, t: Target, obs: seq<Observation>, d: Observation, f: Family)
    requires f == IPv4 || f == IPv6
    ensures Announced(d, f) && !HasKey(obs, LayerTCP, f) ==>
              DueOn(ident, prefer6, t, obs, d, f, Make(ident, TcpSpec(t, f)))
    ensures Secure(t) && Leads(prefer6, d, f) && !HasKey(obs, LayerQUIC, f) ==>
              DueOn(ident, prefer6, t, obs, d, f, Make(ident, QuicSpec(t, f, "")))
    ensures var c := Make(ident, TcpSpec(t, f)).spec; c.layer == LayerTCP && c.family == f
    ensures var q := Make(ident, QuicSpec(t, f, "")).spec; q.layer == LayerQUIC && q.family == f
  {
    hide Make, TcpSpec, QuicSpec, Latest, HasKey, Announced, Leads, Connects;
    MadeSpec(ident, TcpSpec(t, f));
    MadeSpec(ident, QuicSpec(t, f, ""));
  }

  /** Once DNS passed, TCP is planned exactly on the announced families without a connect, and QUIC
      exactly on the leading family of an https target without one. */
  lemma ResolvedPlan(ident: Ident, prefer6: bool, t: Target, obs: seq<Observation>, d: Observation, f: Family)
    requires Latest(obs, LayerDNS, NoFamily) == Some(d) && d.status == Pass
    ensures PlannedOn(ident, prefer6, t, obs, LayerTCP, f) <==> Announced(d, f) && !HasKey(obs, LayerTCP, f)
    ensures PlannedOn(ident, prefer6, t, obs, LayerQUIC, f) <==>
            Secure(t) && Leads(prefer6, d, f) && !HasKey(obs, LayerQUIC, f)
  {
    hide Plan, Latest, HasKey, Announced, Leads, DueOn, Make, TcpSpec, QuicSpec;
    forall e ensures e in Plan(ident, prefer6, t, obs) <==> exists g :: DueOn(ident, prefer6, t, obs, d, g, e) {
      PlannedIff(ident, prefer6, t, obs, e);
    }
    forall e, g | DueOn(ident, prefer6, t, obs, d, g, e)
      ensures e.spec.family == g && Announced(d, g)
      ensures e.spec.layer == LayerTCP ==> !HasKey(obs, LayerTCP, g)
      ensures e.spec.layer == LayerQUIC ==> Secure(t) && Leads(prefer6, d, g) && !HasKey(obs, LayerQUIC, g)
    {
      DueKeys(ident, prefer6, t, obs, d, g, e);
      DueIsAnnounced(ident, prefer6, t, obs, d, g, e);
    }
    LeadIsAnnounced(prefer6, d, f);
    if Announced(d, f) {
      AnnouncedAre(d, f);
      ConnectDue(ident, prefer6, t, obs, d, f);
    }
  }

  lemma LeadIsAnnounced(prefer6: bool, d: Observation, f: Family)
    ensures Leads(prefer6, d, f) ==> Announced(d, f)
  {
    hide Announced;
  }

  /** The addresses decide: with `four` and `six` in the first answer, TCP is planned on IPv4 exactly
      when `four` is nonempty and on IPv6 exactly when `six` is, and QUIC on the preferred one. */
  lemma AnswerIsFollowed(ident: Ident, prefer6: bool, t: Target, obs: seq<Observation>, d: Observation, i: nat,
                         four: seq<string>, six: seq<string>)
    requires Latest(obs, LayerDNS, NoFamily) == Some(d) && d.status == Pass
    requires i < |d.evidence| && d.evidence[i].kind == KindDNSAnswer
    requires forall j :: 0 <= j < i ==> d.evidence[j].kind != KindDNSAnswer
    requires var v := d.evidence[i].values; "v4" in v && v["v4"] == Texts(four) && "v6" in v && v["v6"] == Texts(six)
    ensures PlannedOn(ident, prefer6, t, obs, LayerTCP, IPv4) <==> four != [] && !HasKey(obs, LayerTCP, IPv4)
    ensures PlannedOn(ident, prefer6, t, obs, LayerTCP, IPv6) <==> six != [] && !HasKey(obs, LayerTCP, IPv6)
    ensures PlannedOn(ident, prefer6, t, obs, LayerQUIC, IPv4) <==>
            Secure(t) && four != [] && (six == [] || !prefer6) && !HasKey(obs, LayerQUIC, IPv4)
    ensures PlannedOn(ident, prefer6, t, obs, LayerQUIC, IPv6) <==>
            Secure(t) && six != [] && (four == [] || prefer6) && !HasKey(obs, LayerQUIC, IPv6)
  {
    hide PlannedOn, Latest, HasKey, Announced;
    forall f ensures Announced(d, f) <==> (f == IPv4 && four != []) || (f == IPv6 && six != []) {
      AnswerDecides(d, i, f);
    }
    ResolvedPlan(ident, prefer6, t, obs, d, IPv4);
    ResolvedPlan(ident, prefer6, t, obs, d, IPv6);
    assert (Announced(d, IPv4) <==> four != []) && (Announced(d, IPv6) <==> six != []);
    assert Leads(prefer6, d, IPv4) <==> four != [] && (six == [] || !prefer6);
    assert Leads(prefer6, d, IPv6) <==> six != [] && (four == [] || prefer6);
  }

  lemma FirstIsIn(evidence: seq<Evidence>, kind: EvidenceKind, i: nat)
    ensures FirstAt(evidence, kind, i) ==> exists e :: e in evidence && e.kind == kind
  {
    if FirstAt(evidence, kind, i) { assert evidence[i] in evidence; }
  }

  /** Without an answer only IPv4 is planned. */
  lemma NoAnswerMeansIPv4(ident: Ident, prefer6: bool, t: Target, obs: seq<Observation>, d: Observation, f: Family)
    requires Latest(obs, LayerDNS, NoFamily) == Some(d) && d.status == Pass
    requires forall e :: e in d.evidence ==> e.kind != KindDNSAnswer
    ensures PlannedOn(ident, prefer6, t, obs, LayerTCP, f) <==> f == IPv4 && !HasKey(obs, LayerTCP, f)
    ensures PlannedOn(ident, prefer6, t, obs, LayerQUIC, f) <==> Secure(t) && f == IPv4 && !HasKey(obs, LayerQUIC, f)
  {
    hide PlannedOn, Latest, HasKey;
    ResolvedPlan(ident, prefer6, t, obs, d, f);
    forall i: nat { FirstIsIn(d.evidence, KindDNSAnswer, i); }
    assert forall g :: Announced(d, g) <==> g == IPv4;
  }

  // ---------------------------------------------------------------------------------------
  // The order of the plan

  function Rank(layer: Layer): nat {
    match layer case LayerTCP => 0 case LayerQUIC => 1 case _ => 2
  }

  /** TCP comes first, the leading family before the other; then QUIC, then TLS or HTTP. */
  lemma PlanInOrder(ident: Ident, prefer6: bool, t: Target, obs: seq<Observation>, i: nat, j: nat)
    requires i < j < |Plan(ident, prefer6, t, obs)|
    ensures var plan, dns := Plan(ident, prefer6, t, obs), Latest(obs, LayerDNS, NoFamily);
            && Passes(dns)
            && (Rank(plan[i].spec.layer) < Rank(plan[j].spec.layer)
                || (plan[i].spec.layer == LayerTCP == plan[j].spec.layer
                    && Leads(prefer6, dns.value, plan[i].spec.family) && !Leads(prefer6, dns.value, plan[j].spec.family)))
  {
    hide Tree, Families, Latest, Make, DnsSpec, Leads, Announced;
    var d := Latest(obs, LayerDNS, NoFamily).value;
    FamiliesMeaning(d, prefer6);
    var fams := Families(d, prefer6);
    forall f | f in fams ensures f != NoFamily { AnnouncedAre(d, f); }
    if fams == [] { NoTree(ident, t, obs); }
    TreeInOrder(ident, t, obs, fams, i, j);
  }

  lemma TreeInOrder(ident: Ident, t: Target, obs: seq<Observation>, fams: seq<Family>, i: nat, j: nat)
    requires 0 < |fams| <= 2 && (|fams| == 2 ==> fams[0] != fams[1]) && NoFamily !in fams
    requires i < j < |Tree(ident, t, obs, fams)|
    ensures var tree := Tree(ident, t, obs, fams);
            || Rank(tree[i].spec.layer) < Rank(tree[j].spec.layer)
            || (tree[i].spec.layer == LayerTCP == tree[j].spec.layer
                && tree[i].spec.family == fams[0] != tree[j].spec.family)
  {
    hide Tree, MenuOf, SlotsOf, Latest;
    SecureIs(t);
    var f, g := fams[0], if |fams| == 2 then fams[1] else fams[0];
    assert fams == if |fams| == 2 then [f, g] else [f];
    TreeReadsSlots(ident, t, obs, f, g);
    MadeKeys(ident, t, f);
    MadeKeys(ident, t, g);
    hide Keyed;
    var m, n := MenuOf(ident, t, f), MenuOf(ident, t, g);
    if |fams| == 2 {
      OrderOfTwo(Secure(t), m, n, SlotsOf(obs, f), SlotsOf(obs, g), Latest(obs, LayerQUIC, f), f, g, i, j);
    } else {
      OrderOfOne(Secure(t), m, SlotsOf(obs, f), Latest(obs, LayerQUIC, f), f, i, j);
    }
  }

  lemma OrderOfOne(https: bool, m: Menu, s: Slots, quic: Option<Observation>, f: Family, i: nat, j: nat)
    requires Keyed(m, f) && i < j < |NextOne(https, m, s, quic)|
    ensures var next := NextOne(https, m, s, quic); Rank(next[i].spec.layer) < Rank(next[j].spec.layer)
  {
  }

  /** At most one experiment, of the given rank and on the family if it is a connect. */
  ghost predicate Single(part: seq<Experiment>, rank: nat, f: Family) {
    && |part| <= 1
    && forall e :: e in part ==> Rank(e.spec.layer) == rank && (rank == 0 ==> e.spec.layer == LayerTCP && e.spec.family == f)
  }

  lemma PartsInOrder(a: seq<Experiment>, b: seq<Experiment>, q: seq<Experiment>, app: seq<Experiment>, f: Family, g: Family,
                     i: nat, j: nat)
    requires Single(a, 0, f) && Single(b, 0, g) && Single(q, 1, f) && Single(app, 2, f) && f != g
    requires i < j < |a + b + q + app|
    ensures var next := a + b + q + app;
            || Rank(next[i].spec.layer) < Rank(next[j].spec.layer)
            || (next[i].spec.layer == LayerTCP == next[j].spec.layer && next[i].spec.family == f != next[j].spec.family)
  {
    hide Rank;
    var next := a + b + q + app;
    forall k | 0 <= k < |next| ensures next[k] == PartAt(a, b, q, app, k) {}
  }

  function PartAt(a: seq<Experiment>, b: seq<Experiment>, q: seq<Experiment>, app: seq<Experiment>, k: nat): Experiment
    requires k < |a + b + q + app|
  {
    if k < |a| then a[k] else if k < |a| + |b| then b[k - |a|]
    else if k < |a| + |b| + |q| then q[k - |a| - |b|] else app[k - |a| - |b| - |q|]
  }

  lemma MenuParts(https: bool, m: Menu, s: Slots, quic: Option<Observation>, f: Family)
    requires Keyed(m, f)
    ensures Single(TcpNext(m, s), 0, f) && Single(QuicNext(https, m, quic), 1, f)
    ensures forall h :: Single(AppNext(https, m, s), 2, h)
  {
  }

  lemma OrderOfTwo(https: bool, m: Menu, n: Menu, s: Slots, r: Slots, quic: Option<Observation>, f: Family, g: Family,
                   i: nat, j: nat)
    requires Keyed(m, f) && Keyed(n, g) && f != g && i < j < |NextTwo(https, m, n, s, r, quic)|
    ensures var next := NextTwo(https, m, n, s, r, quic);
            || Rank(next[i].spec.layer) < Rank(next[j].spec.layer)
            || (next[i].spec.layer == LayerTCP == next[j].spec.layer && next[i].spec.family == f != next[j].spec.family)
  {
    hide TcpNext, QuicNext, AppNext, Keyed, Single, Rank;
    MenuParts(https, m, s, quic, f);
    MenuParts(https, n, r, quic, g);
    PartsInOrder(TcpNext(m, s), TcpNext(n, r), QuicNext(https, m, quic),
                 if Passes(s.tcp) then AppNext(https, m, s) else AppNext(https, n, r), f, g, i, j);
  }
}
