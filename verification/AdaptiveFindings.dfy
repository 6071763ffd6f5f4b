/** What the Adaptive policy's follow-ups mean for inference and comparison. */
module AdaptiveFindings {
  import opened Model
  import opened Selectors
  import opened Runs
  import opened Adaptive
  import opened AdaptiveRuns
  import opened AdaptiveChoice
  import opened AdaptiveFamilies
  import opened Infer
  import opened InferFacts
  import opened Compare
  import Canonical

  lemma OrderlyPrefix(ident: Ident, t: Target, s: Survey, i: nat)
    requires Orderly(ident, t, s) && i < |s.observations|
    requires s.observations[i].layer != LayerTCP && !IsCanonical(s.observations[i].experiment.spec)
    ensures HasCanonical(s.observations[..i], s.observations[i].layer, s.observations[i].experiment.spec.family)
  {
    hide Universe, IsCanonical;
    var o, before := s.observations[i], s.observations[..i];
    assert o in s.observations;
    UniverseDefaults(t, o.experiment.spec);
    assert DefaultFirstAt(before, o);
    forall j | 0 <= j < |before| ensures DefaultFirstAt(before[..j], before[j]) {
      assert before[..j] == s.observations[..j] && before[j] == s.observations[j];
      assert DefaultFirstAt(s.observations[..j], s.observations[j]);
    }
    KeyHasDefault(before, o.layer, o.experiment.spec.family);
  }

  /** No follow-up of any Adaptive survey masks a default: in every chain of runs and resumes
      from a fresh state, with any outcomes, recording a non-default, non-TCP observation whose
      addresses agree changes no finding; only path_healthy can appear or grow. */
  lemma FollowUpsNeverMask(ident: Ident, prefer6: bool, t: Target, runs: seq<Attempt>, i: nat)
    requires var obs := Resumes(ident, AdaptivePolicy(ident, prefer6), Survey(Some(t), 0, [], []), runs).observations;
             i < |obs| && obs[i].layer != LayerTCP && !IsCanonical(obs[i].experiment.spec) && !Partial(obs[i])
    ensures var obs := Resumes(ident, AdaptivePolicy(ident, prefer6), Survey(Some(t), 0, [], []), runs).observations;
            Undisturbed(obs[..i], obs[i])
  {
    hide AdaptivePolicy, Resumes, Orderly, IsCanonical, Partial, Undisturbed;
    var start := Survey(Some(t), 0, [], []);
    EmptyIsOrderly(ident, t);
    AdaptiveResumesKeepOrder(ident, prefer6, t, start, runs);
    var s := Resumes(ident, AdaptivePolicy(ident, prefer6), start, runs);
    OrderlyPrefix(ident, t, s, i);
    VariantsDoNotInterfere(s.observations[..i], s.observations[i]);
  }

  /** On every such survey the comparison looks at the observation that inference judges, for
      each layer but TCP on IPv4 and on IPv6. */
  lemma ComparedIsInferred(ident: Ident, prefer6: bool, t: Target, runs: seq<Attempt>, detail: Detail,
                           layer: Layer, family: Family)
    requires layer != LayerTCP && !layer.LayerOther? && (family == IPv4 || family == IPv6)
    ensures var obs := Resumes(ident, AdaptivePolicy(ident, prefer6), Survey(Some(t), 0, [], []), runs).observations;
            var k := Key(Canonical.LayerName(layer), Canonical.FamilyName(family));
            match Pick(obs, layer, family)
            case None => k !in ViewsOf(detail, obs)
            case Some(o) => k in ViewsOf(detail, obs) && ViewsOf(detail, obs)[k] == ViewOf(detail, o)
  {
    hide AdaptivePolicy, Resumes, Universe, Pick, First, ViewsOf, ViewOf, Canonical.LayerName, Canonical.FamilyName;
    var start := Survey(Some(t), 0, [], []);
    EmptyIsOrderly(ident, t);
    AdaptiveResumesKeepOrder(ident, prefer6, t, start, runs);
    var s := Resumes(ident, AdaptivePolicy(ident, prefer6), start, runs);
    AdaptiveSelectorsAgree(ident, prefer6, t, runs, layer, family);
    forall o | o in s.observations ensures !o.layer.LayerOther? { UniverseLayers(t, o.experiment.spec); }
    ViewIsFirst(detail, s.observations, layer, family);
  }

  /** For DNS, UDP and QUIC, which inference looks up without a family, the comparison has one
      view at most, and it is of the observation that inference judges. */
  lemma ComparedIsInferredOpen(ident: Ident, prefer6: bool, t: Target, runs: seq<Attempt>, detail: Detail, layer: Layer)
    requires layer == LayerDNS || layer == LayerUDP || layer == LayerQUIC
    ensures var obs := Resumes(ident, AdaptivePolicy(ident, prefer6), Survey(Some(t), 0, [], []), runs).observations;
            var vs := ViewsOf(detail, obs);
            match Pick(obs, layer, NoFamily)
            case None => forall k :: k in vs ==> k.layer != Canonical.LayerName(layer)
            case Some(o) =>
              && (forall k :: k in vs && k.layer == Canonical.LayerName(layer) ==> k == KeyOf(o))
              && KeyOf(o) in vs && vs[KeyOf(o)] == ViewOf(detail, o)
  {
    hide AdaptivePolicy, Resumes, Universe, Pick, First, ViewsOf, ViewOf, Canonical.LayerName, Canonical.FamilyName,
      SharedFamily, InUniverse, OnPreferred;
    ReachedIsFiled(ident, prefer6, t, runs);
    var s := Resumes(ident, AdaptivePolicy(ident, prefer6), Survey(Some(t), 0, [], []), runs);
    var obs := s.observations;
    AdaptiveSelectorsAgree(ident, prefer6, t, runs, layer, NoFamily);
    FirstMeaning(obs, layer, NoFamily);
    forall i | 0 <= i < |obs|
      ensures KeyOf(obs[i]).layer == Canonical.LayerName(layer) <==> obs[i].layer == layer
      ensures obs[i].layer == layer ==> KeyOf(obs[i]) == SharedKey(prefer6, obs, layer)
    {
      SharedKeyIs(ident, prefer6, t, s, layer, i);
    }
    forall k | k in ViewsOf(detail, obs)
      ensures exists i :: 0 <= i < |obs| && KeyOf(obs[i]) == k
    {
      ViewsMeaning(detail, obs, k);
    }
    if Pick(obs, layer, NoFamily).Some? {
      ViewsMeaning(detail, obs, SharedKey(prefer6, obs, layer));
    }
  }

  ghost function SharedKey(prefer6: bool, obs: seq<Observation>, layer: Layer): Key {
    var f := SharedFamily(prefer6, obs, layer);
    Key(Canonical.LayerName(layer), if f == IPv4 || f == IPv6 then Canonical.FamilyName(f) else "")
  }

  lemma SharedKeyIs(ident: Ident, prefer6: bool, t: Target, s: Survey, layer: Layer, i: nat)
    requires Filed(ident, prefer6, t, s) && i < |s.observations|
    requires layer == LayerDNS || layer == LayerUDP || layer == LayerQUIC
    ensures var o := s.observations[i];
            && (KeyOf(o).layer == Canonical.LayerName(layer) <==> o.layer == layer)
            && (o.layer == layer ==> KeyOf(o) == SharedKey(prefer6, s.observations, layer))
  {
    hide Universe, Canonical.LayerName, SharedFamily, OnPreferred;
    var o := s.observations[i];
    assert o in s.observations;
    UniverseLayers(t, o.experiment.spec);
    if Canonical.LayerName(o.layer) == Canonical.LayerName(layer) {
      Canonical.LayerNamesInjective(o.layer, layer);
    }
    LayersShareFamily(ident, prefer6, t, s, layer, i);
  }

  lemma UniverseLayers(t: Target, s: Spec)
    requires s in Universe(t)
    ensures !s.layer.LayerOther?
  {
    hide WithPort, Defaults;
  }
}
