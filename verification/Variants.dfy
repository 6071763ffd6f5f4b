/** Whole records with follow-up variants against the same records without them. */
module Variants {
  import opened Model
  import opened Selectors
  import opened Runs
  import opened Fast
  import opened Adaptive
  import opened AdaptiveRuns
  import opened AdaptiveChoice
  import opened Infer
  import opened InferFacts

  /** What remains without the non-TCP variants. */
  predicate Plain(o: Observation) { o.layer == LayerTCP || IsCanonical(o.experiment.spec) }

  function Stripped(obs: seq<Observation>): seq<Observation> {
    if |obs| == 0 then []
    else Stripped(obs[..|obs| - 1]) + if Plain(obs[|obs| - 1]) then [obs[|obs| - 1]] else []
  }

  /** Default-first, and no variant's addresses disagree. */
  ghost predicate Harmless(obs: seq<Observation>) {
    DefaultFirst(obs)
    && forall o :: o in obs && !Plain(o) ==> !Partial(o) && o.experiment.spec.family != NoFamily
  }

  lemma {:induction false} StrippedMember(obs: seq<Observation>, o: Observation)
    ensures o in Stripped(obs) <==> o in obs && Plain(o)
  {
    hide Plain;
    if |obs| > 0 {
      var n := |obs| - 1;
      StrippedMember(obs[..n], o);
      assert obs == obs[..n] + [obs[n]];
    }
  }

  lemma HarmlessPrefix(obs: seq<Observation>)
    requires Harmless(obs) && |obs| > 0
    ensures Harmless(obs[..|obs| - 1]) && DefaultFirstAt(obs[..|obs| - 1], obs[|obs| - 1])
  {
    hide Partial, Plain, DefaultFirstAt;
    var before := obs[..|obs| - 1];
    forall i | 0 <= i < |before| ensures DefaultFirstAt(before[..i], before[i]) {
      assert before[..i] == obs[..i] && before[i] == obs[i];
      assert DefaultFirstAt(obs[..i], obs[i]);
    }
    assert DefaultFirstAt(obs[..|obs| - 1], obs[|obs| - 1]);
  }

  lemma DroppedIsVariant(obs: seq<Observation>)
    requires Harmless(obs) && |obs| > 0 && !Plain(obs[|obs| - 1])
    ensures FollowUpVariant(obs[..|obs| - 1], obs[|obs| - 1])
  {
    hide Partial, IsCanonical, HasCanonical;
    var before, o := obs[..|obs| - 1], obs[|obs| - 1];
    HarmlessPrefix(obs);
    assert o in obs;
    KeyHasDefault(before, o.layer, o.experiment.spec.family);
  }

  lemma StrippedHasCanonical(obs: seq<Observation>, layer: Layer, family: Family)
    ensures HasCanonical(Stripped(obs), layer, family) <==> HasCanonical(obs, layer, family)
  {
    hide Stripped, Matches, IsCanonical;
    forall o ensures o in Stripped(obs) <==> o in obs && Plain(o) { StrippedMember(obs, o); }
    if i :| 0 <= i < |obs| && MatchesDefault(obs[i], layer, family) {
      assert obs[i] in obs && Plain(obs[i]);
      var j :| 0 <= j < |Stripped(obs)| && Stripped(obs)[j] == obs[i];
    }
    if i :| 0 <= i < |Stripped(obs)| && MatchesDefault(Stripped(obs)[i], layer, family) {
      assert Stripped(obs)[i] in Stripped(obs);
      var j :| 0 <= j < |obs| && obs[j] == Stripped(obs)[i];
    }
  }

  /** Inference prefers the same observations with and without the variants. */
  lemma {:induction false} StrippedPick(obs: seq<Observation>, layer: Layer, family: Family)
    requires Harmless(obs)
    ensures Pick(Stripped(obs), layer, family) == Pick(obs, layer, family)
    decreases |obs|
  {
    hide Pick, Harmless, Plain, HasCanonical, FollowUpVariant;
    if |obs| > 0 {
      var before, o := obs[..|obs| - 1], obs[|obs| - 1];
      assert obs == before + [o];
      HarmlessPrefix(obs);
      StrippedPick(before, layer, family);
      if Plain(o) {
        SelectorsAppend(before, o, layer, family);
        SelectorsAppend(Stripped(before), o, layer, family);
        StrippedHasCanonical(before, layer, family);
      } else {
        DroppedIsVariant(obs);
        assert Stripped(obs) == Stripped(before);
        VariantIsNotPicked(before, o, layer, family);
      }
    }
  }

  lemma StrippedTcp(obs: seq<Observation>)
    ensures TcpFailsEverywhere(Stripped(obs)) == TcpFailsEverywhere(obs)
    ensures TcpRefused(Stripped(obs)) == TcpRefused(obs)
  {
    hide Stripped, Has;
    forall o: Observation ensures o.layer == LayerTCP ==> (o in Stripped(obs) <==> o in obs) { StrippedMember(obs, o); }
    SameTcp(Stripped(obs), obs);
  }

  lemma SameTcp(x: seq<Observation>, y: seq<Observation>)
    requires forall o: Observation :: o.layer == LayerTCP ==> (o in x <==> o in y)
    ensures TcpFailsEverywhere(x) == TcpFailsEverywhere(y) && TcpRefused(x) == TcpRefused(y)
  {
    hide Has;
    TcpByMembers(x);
    TcpByMembers(y);
  }

  lemma TcpByMembers(obs: seq<Observation>)
    ensures TcpFailsEverywhere(obs) <==>
            (exists o :: o in obs && Attempted(o)) && forall o :: o in obs && Attempted(o) ==> o.status != Pass
    ensures TcpRefused(obs) <==> exists o :: o in obs && o.layer == LayerTCP && Has(o, KindTCPRefused)
  {
    hide Has;
    forall i | 0 <= i < |obs| ensures obs[i] in obs {}
    if o :| o in obs && Attempted(o) {
      var i :| 0 <= i < |obs| && obs[i] == o;
      assert Attempted(obs[i]);
    }
    if o :| o in obs && o.layer == LayerTCP && Has(o, KindTCPRefused) {
      var i :| 0 <= i < |obs| && obs[i] == o;
    }
  }

  lemma {:induction false} StrippedPartialLines(obs: seq<Observation>)
    requires forall o :: o in obs && !Plain(o) ==> !Partial(o)
    ensures PartialLines(Stripped(obs)) == PartialLines(obs)
    ensures |PassingLines(Stripped(obs))| <= |PassingLines(obs)|
    decreases |obs|
  {
    hide Plain, Partial, PartialLines, PassingLines;
    if |obs| > 0 {
      var before, o := obs[..|obs| - 1], obs[|obs| - 1];
      assert obs == before + [o];
      assert o in obs && forall x :: x in before ==> x in obs;
      StrippedPartialLines(before);
      LinesAppend(before, o);
      if Plain(o) {
        LinesAppend(Stripped(before), o);
        PartialLinesAppend(before, o);
        PartialLinesAppend(Stripped(before), o);
        assert Stripped(obs) == Stripped(before) + [o];
      } else {
        assert Stripped(obs) == Stripped(before) && !Partial(o);
      }
    }
  }

  lemma PartialLinesAppend(obs: seq<Observation>, o: Observation)
    ensures PartialLines(obs + [o]) == PartialLines(obs)
            + if !Partial(o) then [] else [TallyLine(o.layer, Passed(o.addresses), |o.addresses|)] + FailedLines(o.layer, o.addresses)
  {
    assert (obs + [o])[..|obs|] == obs;
  }

  lemma StrippedPartialPart(obs: seq<Observation>)
    requires forall o :: o in obs && !Plain(o) ==> !Partial(o)
    ensures PartialPart(Stripped(obs)) == PartialPart(obs)
  {
    hide Plain, Partial, Definite, PartialLines, Stripped, PassingLines;
    StrippedPartialLines(obs);
    forall o ensures o in Stripped(obs) <==> o in obs && Plain(o) { StrippedMember(obs, o); }
    if i :| 0 <= i < |obs| && Partial(obs[i]) && Definite(obs[i]) {
      assert obs[i] in obs;
      var j :| 0 <= j < |Stripped(obs)| && Stripped(obs)[j] == obs[i];
    }
    if i :| 0 <= i < |Stripped(obs)| && Partial(Stripped(obs)[i]) && Definite(Stripped(obs)[i]) {
      assert Stripped(obs)[i] in Stripped(obs);
      var j :| 0 <= j < |obs| && obs[j] == Stripped(obs)[i];
    }
  }

  lemma StrippedTrouble(obs: seq<Observation>)
    requires Harmless(obs)
    ensures Trouble(Stripped(obs)) == Trouble(obs) && TcpPassAny(Stripped(obs)) == TcpPassAny(obs)
  {
    hide Pick, Stripped, PartialPart, Found, Has, UnknownAuthority, Rejected, Harmless;
    forall l, f ensures Pick(Stripped(obs), l, f) == Pick(obs, l, f) { StrippedPick(obs, l, f); }
    assert PartialPart(Stripped(obs)) == PartialPart(obs) by { NotPartial(obs); StrippedPartialPart(obs); }
  }

  lemma NotPartial(obs: seq<Observation>)
    requires Harmless(obs)
    ensures forall o :: o in obs && !Plain(o) ==> !Partial(o)
  {
    hide Partial, Plain;
  }

  /** The findings of the two records agree, except that path_healthy is reported with the longer
      record's lines, and may only be reported there. */
  ghost predicate SameButHealth(few: seq<Observation>, all: seq<Observation>) {
    var healthy := [Finding(PathHealthy, Confirmed, PassingLines(all))];
    || InferFrom(all) == InferFrom(few)
    || (InferFrom(few) == [] && |PassingLines(few)| < 3 && InferFrom(all) == healthy)
    || (InferFrom(few) == [Finding(PathHealthy, Confirmed, PassingLines(few))] && InferFrom(all) == healthy)
  }

  /** Removing all follow-up variants from a record changes no finding but path_healthy, and a
      healthy path stays healthy with them. */
  lemma VariantsChangeNothing(obs: seq<Observation>)
    requires Harmless(obs)
    ensures SameButHealth(Stripped(obs), obs)
  {
    hide Trouble, TcpFailsEverywhere, TcpRefused, PassingLines, DnsRcode, Pick, TcpPassAny, Harmless, Stripped, Plain, Partial;
    forall l, f ensures Pick(Stripped(obs), l, f) == Pick(obs, l, f) { StrippedPick(obs, l, f); }
    StrippedTcp(obs);
    StrippedTrouble(obs);
    NotPartial(obs);
    StrippedPartialLines(obs);
  }

  /** In particular for every chain of Adaptive runs from a fresh survey, with any outcomes in
      which no variant's addresses disagree. */
  lemma AdaptiveVariantsChangeNothing(ident: Ident, prefer6: bool, t: Target, runs: seq<Attempt>)
    requires var obs := Resumes(ident, AdaptivePolicy(ident, prefer6), Survey(Some(t), 0, [], []), runs).observations;
             forall o :: o in obs && !Plain(o) ==> !Partial(o)
    ensures var obs := Resumes(ident, AdaptivePolicy(ident, prefer6), Survey(Some(t), 0, [], []), runs).observations;
            SameButHealth(Stripped(obs), obs)
  {
    hide AdaptivePolicy, Resumes, Universe, Partial, SameButHealth, Plain, IsCanonical, DefaultFirst;
    var start := Survey(Some(t), 0, [], []);
    EmptyIsOrderly(ident, t);
    AdaptiveResumesKeepOrder(ident, prefer6, t, start, runs);
    var obs := Resumes(ident, AdaptivePolicy(ident, prefer6), start, runs).observations;
    forall o | o in obs && !Plain(o) ensures o.experiment.spec.family != NoFamily {
      assert o.layer != LayerTCP by { TcpIsPlain(o); }
      UniverseDefaults(t, o.experiment.spec);
    }
    VariantsChangeNothing(obs);
  }

  lemma TcpIsPlain(o: Observation)
    ensures o.layer == LayerTCP ==> Plain(o)
  {
  }
}
