/** What findings mean: their structure, and that follow-up variants do not disturb them. */
module InferFacts {
  import opened Model
  import opened Selectors
  import opened Fast
  import opened Infer

  // ---------------------------------------------------------------------------------------
  // Variants do not mask the default experiment

  /** `o` is a follow-up variant: not the default, not TCP, its layer and family already have a
      default observation, and its addresses all agree. */
  ghost predicate FollowUpVariant(obs: seq<Observation>, o: Observation) {
    && o.layer != LayerTCP && !IsCanonical(o.experiment.spec)
    && HasCanonical(obs, o.layer, o.experiment.spec.family)
    && !Partial(o)
  }

  lemma VariantIsNotPicked(obs: seq<Observation>, o: Observation, layer: Layer, family: Family)
    requires FollowUpVariant(obs, o)
    ensures Pick(obs + [o], layer, family) == Pick(obs, layer, family)
  {
    hide Pick, IsCanonical, Partial;
    SelectorsAppend(obs, o, layer, family);
    if Matches(o, layer, family) {
      var i :| 0 <= i < |obs| && MatchesDefault(obs[i], o.layer, o.experiment.spec.family);
      if o.experiment.spec.family == NoFamily {
        assert family == NoFamily;
      }
      assert MatchesDefault(obs[i], layer, family);
    }
  }

  lemma LinesAppend(obs: seq<Observation>, o: Observation)
    ensures PassingLines(obs + [o]) == PassingLines(obs) + if o.status == Pass then [ObservationLine(o)] else []
    ensures !Partial(o) ==> PartialLines(obs + [o]) == PartialLines(obs)
  {
    assert (obs + [o])[..|obs|] == obs;
  }

  lemma PartialVerdictAppend(obs: seq<Observation>, o: Observation)
    requires !Partial(o)
    ensures PartialPart(obs + [o]) == PartialPart(obs)
  {
    hide Partial, Definite, PartialLines;
    LinesAppend(obs, o);
    if PartialDefinite(obs) {
      var i :| 0 <= i < |obs| && Partial(obs[i]) && Definite(obs[i]);
      assert (obs + [o])[i] == obs[i];
    }
    if PartialDefinite(obs + [o]) {
      var i :| 0 <= i < |obs + [o]| && Partial((obs + [o])[i]) && Definite((obs + [o])[i]);
      assert i < |obs| && obs[i] == (obs + [o])[i];
    }
  }

  lemma TcpVerdictAppend(obs: seq<Observation>, o: Observation)
    requires o.layer != LayerTCP
    ensures TcpFailsEverywhere(obs + [o]) == TcpFailsEverywhere(obs)
    ensures TcpRefused(obs + [o]) == TcpRefused(obs)
  {
    hide Has;
    var all := obs + [o];
    assert forall i :: 0 <= i < |obs| ==> all[i] == obs[i];
    assert !Attempted(all[|obs|]);
    if TcpRefused(obs) {
      var i :| 0 <= i < |obs| && obs[i].layer == LayerTCP && Has(obs[i], KindTCPRefused);
      assert all[i].layer == LayerTCP && Has(all[i], KindTCPRefused);
    }
    if i :| 0 <= i < |obs| && Attempted(obs[i]) {
      assert Attempted(all[i]);
    }
  }

  lemma TroubleUndisturbed(obs: seq<Observation>, o: Observation)
    requires FollowUpVariant(obs, o)
    ensures Trouble(obs + [o]) == Trouble(obs)
    ensures TcpPassAny(obs + [o]) == TcpPassAny(obs)
  {
    hide Pick, FollowUpVariant, PartialPart, Found, Has, UnknownAuthority, Rejected;
    VariantIsNotPicked(obs, o, LayerTCP, IPv4);
    VariantIsNotPicked(obs, o, LayerTCP, IPv6);
    VariantIsNotPicked(obs, o, LayerTLS, IPv4);
    VariantIsNotPicked(obs, o, LayerTLS, IPv6);
    VariantIsNotPicked(obs, o, LayerQUIC, IPv4);
    VariantIsNotPicked(obs, o, LayerQUIC, IPv6);
    VariantIsNotPicked(obs, o, LayerQUIC, NoFamily);
    VariantIsNotPicked(obs, o, LayerUDP, NoFamily);
    VariantIsNotPicked(obs, o, LayerHTTP, IPv4);
    VariantIsNotPicked(obs, o, LayerHTTP, IPv6);
    assert !Partial(o) by { VariantAgrees(obs, o); }
    PartialVerdictAppend(obs, o);
  }

  lemma VariantAgrees(obs: seq<Observation>, o: Observation)
    requires FollowUpVariant(obs, o)
    ensures !Partial(o) && o.layer != LayerTCP
  {
  }

  /** Recording `o` changes no finding, except that path_healthy may appear with the third
      passing observation, or gain `o` as one more line. */
  ghost predicate Undisturbed(obs: seq<Observation>, o: Observation) {
    var before, after := InferFrom(obs), InferFrom(obs + [o]);
    || after == before
    || (&& before == [] && |PassingLines(obs)| == 2 && o.status == Pass
        && after == [Finding(PathHealthy, Confirmed, PassingLines(obs) + [ObservationLine(o)])])
    || (&& before == [Finding(PathHealthy, Confirmed, PassingLines(obs))] && o.status == Pass
        && after == [Finding(PathHealthy, Confirmed, PassingLines(obs) + [ObservationLine(o)])])
  }

  /** Variant non-interference: a follow-up variant, with any outcome, changes no finding. Only
      path_healthy can react: it may appear, or gain the variant as one more line; it is never
      lost. */
  lemma VariantsDoNotInterfere(obs: seq<Observation>, o: Observation)
    requires FollowUpVariant(obs, o)
    ensures Undisturbed(obs, o)
  {
    hide Trouble, TcpFailsEverywhere, TcpRefused, FollowUpVariant, PassingLines, DnsRcode, Pick, TcpPassAny;
    VariantIsNotPicked(obs, o, LayerDNS, NoFamily);
    VariantIsNotPicked(obs, o, LayerTCP, IPv4);
    VariantIsNotPicked(obs, o, LayerTCP, IPv6);
    VariantAgrees(obs, o);
    TcpVerdictAppend(obs, o);
    TroubleUndisturbed(obs, o);
    LinesAppend(obs, o);
    if o.status == Pass {
      assert PassingLines(obs + [o]) == PassingLines(obs) + [ObservationLine(o)];
    } else {
      assert PassingLines(obs + [o]) == PassingLines(obs);
      assert InferFrom(obs + [o]) == InferFrom(obs);
    }
  }

  // ---------------------------------------------------------------------------------------
  // Structure of the findings

  lemma TroubleKinds(obs: seq<Observation>, f: Finding)
    requires f in Trouble(obs)
    ensures f.kind != DNSFailure && f.kind != TCPUnreachable && f.kind != PathHealthy
  {
    hide Pick, Lines, Has, UnknownAuthority, Rejected, PartialLines, PartialDefinite, TcpPassAny, PairFails, Broken, TLSPart;
    InTrouble(obs, f);
    if f in TLSPart(obs, IPv4) {
      TLSKinds(obs, IPv4, f);
    } else if f in TLSPart(obs, IPv6) {
      TLSKinds(obs, IPv6, f);
    }
  }

  lemma InTrouble(obs: seq<Observation>, f: Finding)
    requires f in Trouble(obs)
    ensures f in IPv6Part(obs) || f in TLSPart(obs, IPv4) || f in TLSPart(obs, IPv6) || f in UDPPart(obs)
         || f in QUICPart(obs) || f in HTTPPart(obs, IPv4) || f in HTTPPart(obs, IPv6) || f in PartialPart(obs)
  {
    hide IPv6Part, TLSPart, UDPPart, QUICPart, HTTPPart, PartialPart;
  }

  lemma TLSKinds(obs: seq<Observation>, fam: Family, f: Finding)
    requires f in TLSPart(obs, fam)
    ensures f.kind == TLSSpecificFailure || f.kind == PossibleProxyInterference
  {
    hide Pick, Lines, Has, UnknownAuthority, Broken;
  }

  /** A DNS failure, an unreachable TCP port and a healthy path are only ever reported alone. */
  lemma LoneFindings(obs: seq<Observation>, f: Finding)
    requires f in InferFrom(obs)
    requires f.kind == DNSFailure || f.kind == TCPUnreachable || f.kind == PathHealthy
    ensures InferFrom(obs) == [f]
  {
    hide Trouble, TcpFailsEverywhere, LooksHealthy, Pick, DnsRcode, TcpRefused, Lines;
    if f in Trouble(obs) { TroubleKinds(obs, f); }
  }

  /** No part of inference fires. */
  ghost predicate Untroubled(obs: seq<Observation>) {
    && (forall l :: l in [LayerTCP, LayerTLS, LayerQUIC] ==> !PairFails(Pick(obs, l, IPv4), Pick(obs, l, IPv6)))
    && (forall f :: f in [IPv4, IPv6] ==>
          && !(Passes(Pick(obs, LayerTCP, f)) && Broken(Pick(obs, LayerTLS, f)))
          && !Rejected(Pick(obs, LayerHTTP, f)))
    && !Broken(Pick(obs, LayerUDP, NoFamily)) && !Broken(Pick(obs, LayerQUIC, NoFamily))
    && (forall i :: 0 <= i < |obs| ==> !Partial(obs[i]))
  }

  lemma {:induction false} NoPartialNoLines(obs: seq<Observation>)
    ensures PartialLines(obs) == [] <==> forall i :: 0 <= i < |obs| ==> !Partial(obs[i])
  {
    hide Partial, FailedLines;
    if |obs| > 0 {
      NoPartialNoLines(obs[..|obs| - 1]);
    }
  }

  lemma TroubleMeansWrong(obs: seq<Observation>)
    ensures Trouble(obs) == [] <==> Untroubled(obs)
  {
    hide Pick, Lines, Has, UnknownAuthority, Rejected, PartialLines, PartialDefinite, TcpPassAny, Partial, PairFails, Broken;
    NoPartialNoLines(obs);
    var a := IPv6Part(obs) == [];
    assert a <==> forall l :: l in [LayerTCP, LayerTLS, LayerQUIC] ==> !PairFails(Pick(obs, l, IPv4), Pick(obs, l, IPv6));
    assert TLSPart(obs, IPv4) == [] <==> !(Passes(Pick(obs, LayerTCP, IPv4)) && Broken(Pick(obs, LayerTLS, IPv4)));
    assert TLSPart(obs, IPv6) == [] <==> !(Passes(Pick(obs, LayerTCP, IPv6)) && Broken(Pick(obs, LayerTLS, IPv6)));
  }

  lemma PickedTcpPassed(obs: seq<Observation>)
    requires TcpPassAny(obs)
    ensures !TcpFailsEverywhere(obs)
  {
    hide Pick, Latest, LatestCanonical;
    var f := if Passes(Pick(obs, LayerTCP, IPv4)) then IPv4 else IPv6;
    PickMeaning(obs, LayerTCP, f);
    LatestMeaning(obs, LayerTCP, f);
    var i :| 0 <= i < |obs| && Pick(obs, LayerTCP, f) == Some(obs[i]) && Matches(obs[i], LayerTCP, f);
    assert Attempted(obs[i]) && obs[i].status == Pass;
  }

  /** path_healthy, in the terms of the code. */
  lemma HealthyWhen(obs: seq<Observation>)
    ensures (exists f :: f in InferFrom(obs) && f.kind == PathHealthy) <==>
            Untroubled(obs) && Passes(Pick(obs, LayerDNS, NoFamily)) && TcpPassAny(obs)
            && |PassingLines(obs)| >= 3
    ensures forall f :: f in InferFrom(obs) && f.kind == PathHealthy ==>
              f == Finding(PathHealthy, Confirmed, PassingLines(obs))
  {
    hide Trouble, TcpFailsEverywhere, Untroubled, TcpRefused, PassingLines, DnsRcode, Pick, TcpPassAny, Lines;
    TroubleMeansWrong(obs);
    if TcpPassAny(obs) { PickedTcpPassed(obs); }
    var found := InferFrom(obs);
    forall f | f in found && f.kind == PathHealthy
      ensures f == Finding(PathHealthy, Confirmed, PassingLines(obs)) && Trouble(obs) == [] && LooksHealthy(obs)
    {
      if f in Trouble(obs) { TroubleKinds(obs, f); }
    }
    if Trouble(obs) == [] && LooksHealthy(obs) {
      assert found == [Finding(PathHealthy, Confirmed, PassingLines(obs))];
      assert found[0] in found;
    }
  }

  /** `lines` stand for exactly the passing observations, found at the ascending indices `at`. */
  ghost predicate Supports(obs: seq<Observation>, lines: seq<Line>, at: seq<nat>) {
    && |at| == |lines|
    && (forall k :: 0 <= k < |at| ==> at[k] < |obs| && lines[k] == ObservationLine(obs[at[k]]))
    && (forall j, k :: 0 <= j < k < |at| ==> at[j] < at[k])
    && forall i :: 0 <= i < |obs| ==> (obs[i].status == Pass <==> i in at)
  }

  /** The passing lines are the passing observations: each line stands for one, and the lines
      are in recording order. */
  lemma {:induction false} PassingLinesMeaning(obs: seq<Observation>) returns (at: seq<nat>)
    ensures Supports(obs, PassingLines(obs), at)
  {
    hide Supports;
    if |obs| == 0 {
      at := [];
      assert Supports(obs, [], []) by { NothingSupports(obs); }
    } else {
      var n := |obs| - 1;
      at := PassingLinesMeaning(obs[..n]);
      assert obs == obs[..n] + [obs[n]];
      OneMoreLine(obs[..n], obs[n], PassingLines(obs[..n]), at);
      at := at + if obs[n].status == Pass then [n] else [];
    }
  }

  lemma NothingSupports(obs: seq<Observation>)
    requires obs == []
    ensures Supports(obs, [], [])
  {
  }

  lemma OneMoreLine(obs: seq<Observation>, o: Observation, lines: seq<Line>, at: seq<nat>)
    requires Supports(obs, lines, at)
    ensures Supports(obs + [o], lines + (if o.status == Pass then [ObservationLine(o)] else []),
                     at + if o.status == Pass then [|obs|] else [])
  {
    var all := obs + [o];
    assert forall k :: 0 <= k < |at| ==> at[k] < |obs| && all[at[k]] == obs[at[k]];
    assert |obs| !in at;
    assert forall i :: 0 <= i < |obs| ==> all[i] == obs[i];
  }

  // ---------------------------------------------------------------------------------------
  // Evidence

  ghost predicate AllHaveEvidence(fs: seq<Finding>) {
    forall f :: f in fs ==> f.evidence != []
  }

  lemma LinesNonempty(obs: seq<Option<Observation>>)
    requires |obs| > 0 && (obs[0].Some? || (|obs| > 1 && obs[1].Some?))
    ensures Lines(obs) != []
  {
  }

  lemma TroubleHasEvidence(obs: seq<Observation>)
    ensures AllHaveEvidence(Trouble(obs))
  {
    hide Pick, Has, UnknownAuthority, PartialLines, PartialDefinite, TcpPassAny, Lines, Rejected;
    forall a: Option<Observation>, b: Option<Observation> | a.Some? || b.Some? ensures Lines([a, b]) != [] { LinesNonempty([a, b]); }
    forall a: Option<Observation> | a.Some? ensures Lines([a]) != [] { LinesNonempty([a]); }
    assert AllHaveEvidence(IPv6Part(obs)) && AllHaveEvidence(UDPPart(obs)) && AllHaveEvidence(QUICPart(obs));
    assert AllHaveEvidence(TLSPart(obs, IPv4)) && AllHaveEvidence(TLSPart(obs, IPv6));
    assert AllHaveEvidence(HTTPPart(obs, IPv4)) && AllHaveEvidence(HTTPPart(obs, IPv6)) by {
      RejectedIsThere(Pick(obs, LayerHTTP, IPv4));
      RejectedIsThere(Pick(obs, LayerHTTP, IPv6));
    }
    assert AllHaveEvidence(PartialPart(obs));
  }

  lemma RejectedIsThere(o: Option<Observation>)
    ensures Rejected(o) ==> o.Some?
  {
  }

  /** A finding without evidence is reported exactly when DNS did not fail, every attempted TCP
      connect failed, and none of them was made over IPv4 or IPv6. */
  lemma EvidenceExactly(obs: seq<Observation>)
    ensures !AllHaveEvidence(InferFrom(obs)) <==>
            && !(Pick(obs, LayerDNS, NoFamily).Some? && Pick(obs, LayerDNS, NoFamily).value.status != Pass)
            && TcpFailsEverywhere(obs) && !HasKey(obs, LayerTCP, IPv4) && !HasKey(obs, LayerTCP, IPv6)
  {
    hide Trouble, TcpFailsEverywhere, TcpRefused, PassingLines, DnsRcode, Pick, TcpPassAny, Lines, HasKey;
    TroubleHasEvidence(obs);
    var dns := Pick(obs, LayerDNS, NoFamily);
    if dns.Some? { LinesNonempty([dns]); }
    var tcp4, tcp6 := Pick(obs, LayerTCP, IPv4), Pick(obs, LayerTCP, IPv6);
    PickIsThere(obs, LayerTCP, IPv4);
    PickIsThere(obs, LayerTCP, IPv6);
    if tcp4.Some? || tcp6.Some? {
      LinesNonempty([tcp4, tcp6]);
    } else {
      NoLines(tcp4, tcp6);
    }
    if !(dns.Some? && dns.value.status != Pass) && TcpFailsEverywhere(obs) {
      var found := InferFrom(obs);
      assert |found| == 1 && found[0].evidence == Lines([tcp4, tcp6]) && found[0] in found;
    }
  }

  lemma NoLines(a: Option<Observation>, b: Option<Observation>)
    requires a.None? && b.None?
    ensures Lines([a, b]) == []
  {
    assert [a, b][1..] == [b] && [b][1..] == [];
    assert Lines([b]) == [];
  }

  lemma PickIsThere(obs: seq<Observation>, layer: Layer, family: Family)
    ensures Pick(obs, layer, family).Some? <==> HasKey(obs, layer, family)
  {
    hide Pick, Latest, LatestCanonical;
    PickMeaning(obs, layer, family);
    LatestMeaning(obs, layer, family);
    if HasCanonical(obs, layer, family) {
      var i :| 0 <= i < |obs| && MatchesDefault(obs[i], layer, family);
      assert Matches(obs[i], layer, family);
    }
  }

  // ---------------------------------------------------------------------------------------
  // Where the code promises less than its comments

  /** path_healthy does not mean that everything probed passed: adding an HTTP timeout never
      removes it. */
  lemma HealthySurvivesTimeout(obs: seq<Observation>, o: Observation)
    requires exists f :: f in InferFrom(obs) && f.kind == PathHealthy
    requires o.layer == LayerHTTP && o.status == Timeout && !Partial(o)
    ensures exists f :: f in InferFrom(obs + [o]) && f.kind == PathHealthy
  {
    hide InferFrom, Pick, PassingLines, TcpPassAny, Partial, IsCanonical, Rejected;
    HealthyWhen(obs);
    HealthyWhen(obs + [o]);
    LinesAppend(obs, o);
    SelectorsAppend(obs, o, LayerDNS, NoFamily);
    forall l, f | l != LayerHTTP ensures Pick(obs + [o], l, f) == Pick(obs, l, f) {
      SelectorsAppend(obs, o, l, f);
    }
    TimeoutIsNoRejection(obs, o, IPv4);
    TimeoutIsNoRejection(obs, o, IPv6);
    assert TcpPassAny(obs + [o]) by { TcpPassAnyFrom(obs, obs + [o]); }
  }

  lemma TimeoutIsNoRejection(obs: seq<Observation>, o: Observation, f: Family)
    requires o.status == Timeout
    ensures Rejected(Pick(obs + [o], LayerHTTP, f)) ==> Rejected(Pick(obs, LayerHTTP, f))
  {
    hide Pick;
    SelectorsAppend(obs, o, LayerHTTP, f);
  }

  lemma TcpPassAnyFrom(a: seq<Observation>, b: seq<Observation>)
    requires Pick(a, LayerTCP, IPv4) == Pick(b, LayerTCP, IPv4) && Pick(a, LayerTCP, IPv6) == Pick(b, LayerTCP, IPv6)
    ensures TcpPassAny(a) == TcpPassAny(b)
  {
  }
}
