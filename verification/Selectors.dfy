/** The three ways the repository chooses "the" observation of a layer: the latest one
    (policies), the canonical one or else the latest (inference), the first one (compare). */
module Selectors {
  import opened Model

  predicate Matches(o: Observation, layer: Layer, family: Family) {
    o.layer == layer && (family == NoFamily || o.experiment.spec.family == family)
  }

  /** The default variant of a layer. */
  predicate IsCanonical(s: Spec) {
    s.sni == "" &&
    match s.layer
    case LayerDNS => s.resolver == ResolverSystem || s.resolver == NoResolver
    case LayerQUIC => s.alpn == "" || s.alpn == H3
    case _ => s.alpn == ""
  }

  predicate HasKey(obs: seq<Observation>, layer: Layer, family: Family) {
    exists i :: 0 <= i < |obs| && Matches(obs[i], layer, family)
  }

  predicate MatchesDefault(o: Observation, layer: Layer, family: Family) {
    Matches(o, layer, family) && IsCanonical(o.experiment.spec)
  }

  predicate HasCanonical(obs: seq<Observation>, layer: Layer, family: Family) {
    exists i :: 0 <= i < |obs| && MatchesDefault(obs[i], layer, family)
  }

  function Latest(obs: seq<Observation>, layer: Layer, family: Family): Option<Observation> {
    if |obs| == 0 then None
    else if Matches(obs[|obs| - 1], layer, family) then Some(obs[|obs| - 1])
    else Latest(obs[..|obs| - 1], layer, family)
  }

  function LatestCanonical(obs: seq<Observation>, layer: Layer, family: Family): Option<Observation> {
    if |obs| == 0 then None
    else if MatchesDefault(obs[|obs| - 1], layer, family) then Some(obs[|obs| - 1])
    else LatestCanonical(obs[..|obs| - 1], layer, family)
  }

  /** Inference: the canonical observation wins, without one the latest is used. */
  function Pick(obs: seq<Observation>, layer: Layer, family: Family): Option<Observation> {
    var c := LatestCanonical(obs, layer, family);
    if c.Some? then c else Latest(obs, layer, family)
  }

  function First(obs: seq<Observation>, layer: Layer, family: Family): Option<Observation> {
    if |obs| == 0 then None
    else if Matches(obs[0], layer, family) then Some(obs[0])
    else First(obs[1..], layer, family)
  }

  /** `Latest` is the match with the greatest index. */
  lemma {:induction false} LatestMeaning(obs: seq<Observation>, layer: Layer, family: Family)
    ensures match Latest(obs, layer, family)
            case None => !HasKey(obs, layer, family)
            case Some(o) => exists i :: 0 <= i < |obs| && obs[i] == o && Matches(o, layer, family)
                                        && forall j :: i < j < |obs| ==> !Matches(obs[j], layer, family)
  {
    if |obs| > 0 && !Matches(obs[|obs| - 1], layer, family) {
      LatestMeaning(obs[..|obs| - 1], layer, family);
    }
  }

  /** `Pick` is the greatest-index canonical match; it falls back to `Latest` exactly when no
      match is canonical. */
  lemma {:induction false} PickMeaning(obs: seq<Observation>, layer: Layer, family: Family)
    ensures match LatestCanonical(obs, layer, family)
            case None => !HasCanonical(obs, layer, family) && Pick(obs, layer, family) == Latest(obs, layer, family)
            case Some(o) => Pick(obs, layer, family) == Some(o)
                            && exists i :: 0 <= i < |obs| && obs[i] == o && MatchesDefault(o, layer, family)
                                 && forall j :: i < j < |obs| ==> !MatchesDefault(obs[j], layer, family)
  {
    hide IsCanonical, Latest;
    if |obs| > 0 && !MatchesDefault(obs[|obs| - 1], layer, family) {
      PickMeaning(obs[..|obs| - 1], layer, family);
      assert forall i :: 0 <= i < |obs| - 1 ==> obs[..|obs| - 1][i] == obs[i];
    }
  }

  /** `First` is the match with the least index. */
  lemma {:induction false} FirstMeaning(obs: seq<Observation>, layer: Layer, family: Family)
    ensures match First(obs, layer, family)
            case None => !HasKey(obs, layer, family)
            case Some(o) => exists i :: 0 <= i < |obs| && obs[i] == o && Matches(o, layer, family)
                                        && forall j :: 0 <= j < i ==> !Matches(obs[j], layer, family)
  {
    if |obs| > 0 && !Matches(obs[0], layer, family) {
      var rest := obs[1..];
      FirstMeaning(rest, layer, family);
      match First(rest, layer, family) {
        case None =>
          forall i | 0 <= i < |obs| ensures !Matches(obs[i], layer, family) {
            if i > 0 { assert rest[i - 1] == obs[i]; }
          }
        case Some(o) =>
          var i :| 0 <= i < |rest| && rest[i] == o
                   && forall j :: 0 <= j < i ==> !Matches(rest[j], layer, family);
          assert obs[i + 1] == o;
          forall j | 0 <= j < i + 1 ensures !Matches(obs[j], layer, family) {
            if j > 0 { assert rest[j - 1] == obs[j]; }
          }
      }
    }
  }

  /** The backward scan of the policies. */
  method LatestScan(obs: seq<Observation>, layer: Layer, family: Family) returns (r: Option<Observation>)
    ensures r == Latest(obs, layer, family)
  {
    var i := |obs|;
    assert obs[..i] == obs;
    while i > 0
      invariant 0 <= i <= |obs|
      invariant Latest(obs, layer, family) == Latest(obs[..i], layer, family)
    {
      i := i - 1;
      assert obs[..i + 1][..i] == obs[..i];
      if Matches(obs[i], layer, family) { return Some(obs[i]); }
    }
    return None;
  }

  /** The backward scan of inference, with its fallback. */
  method PickScan(obs: seq<Observation>, layer: Layer, family: Family) returns (r: Option<Observation>)
    ensures r == Pick(obs, layer, family)
  {
    var fallback: Option<Observation> := None;
    var i := |obs|;
    assert obs[..i] == obs;
    while i > 0
      invariant 0 <= i <= |obs|
      invariant LatestCanonical(obs, layer, family) == LatestCanonical(obs[..i], layer, family)
      invariant Latest(obs, layer, family) ==
                if fallback.Some? then fallback else Latest(obs[..i], layer, family)
    {
      i := i - 1;
      assert obs[..i + 1][..i] == obs[..i];
      if Matches(obs[i], layer, family) {
        if IsCanonical(obs[i].experiment.spec) { return Some(obs[i]); }
        if fallback.None? { fallback := Some(obs[i]); }
      }
    }
    return fallback;
  }

  lemma LatestAppend(obs: seq<Observation>, o: Observation, layer: Layer, family: Family)
    ensures Latest(obs + [o], layer, family) ==
            if Matches(o, layer, family) then Some(o) else Latest(obs, layer, family)
  {
    assert (obs + [o])[..|obs|] == obs;
  }

  /** What recording one more observation does to each selector, for every observation. */
  lemma SelectorsAppend(obs: seq<Observation>, o: Observation, layer: Layer, family: Family)
    ensures Latest(obs + [o], layer, family) ==
            if Matches(o, layer, family) then Some(o) else Latest(obs, layer, family)
    ensures Pick(obs + [o], layer, family) ==
            if Matches(o, layer, family) && (IsCanonical(o.experiment.spec) || !HasCanonical(obs, layer, family))
            then Some(o) else Pick(obs, layer, family)
    ensures First(obs + [o], layer, family) ==
            if HasKey(obs, layer, family) then First(obs, layer, family)
            else if Matches(o, layer, family) then Some(o) else None
  {
    assert (obs + [o])[..|obs|] == obs;
    LatestAppend(obs, o, layer, family);
    PickMeaning(obs, layer, family);
    FirstAppend(obs, o, layer, family);
  }

  lemma {:induction false} FirstAppend(obs: seq<Observation>, o: Observation, layer: Layer, family: Family)
    ensures First(obs + [o], layer, family) ==
            if HasKey(obs, layer, family) then First(obs, layer, family)
            else if Matches(o, layer, family) then Some(o) else None
  {
    if |obs| == 0 {
      assert obs + [o] == [o];
    } else {
      FirstAppend(obs[1..], o, layer, family);
      assert (obs + [o])[1..] == obs[1..] + [o];
      FirstMeaning(obs, layer, family);
      FirstMeaning(obs[1..], layer, family);
    }
  }

  /** Every non-TCP observation is the default variant exactly when it is the first of its
      layer and family. */
  predicate DefaultFirst(obs: seq<Observation>) {
    forall i :: 0 <= i < |obs| ==> DefaultFirstAt(obs[..i], obs[i])
  }

  predicate DefaultFirstAt(before: seq<Observation>, o: Observation) {
    o.layer == LayerTCP ||
    (IsCanonical(o.experiment.spec) <==> !HasKey(before, o.layer, o.experiment.spec.family))
  }

  lemma DefaultFirstAppend(obs: seq<Observation>, o: Observation)
    requires DefaultFirst(obs) && DefaultFirstAt(obs, o)
    ensures DefaultFirst(obs + [o])
  {
    forall i | 0 <= i < |obs + [o]| ensures DefaultFirstAt((obs + [o])[..i], (obs + [o])[i]) {
      if i < |obs| {
        assert (obs + [o])[..i] == obs[..i];
      } else {
        assert (obs + [o])[..i] == obs;
      }
    }
  }

  /** Where the default comes first, "first wins" and "canonical wins" choose alike. */
  lemma {:induction false} FirstIsPick(obs: seq<Observation>, layer: Layer, family: Family)
    requires DefaultFirst(obs) && layer != LayerTCP && family != NoFamily
    ensures First(obs, layer, family) == Pick(obs, layer, family)
  {
    if |obs| > 0 {
      var n := |obs| - 1;
      var before, o := obs[..n], obs[n];
      assert obs == before + [o];
      forall i | 0 <= i < |before| ensures DefaultFirstAt(before[..i], before[i]) {
        assert before[..i] == obs[..i] && before[i] == obs[i];
        assert DefaultFirstAt(obs[..i], obs[i]);
      }
      FirstIsPick(before, layer, family);
      SelectorsAppend(before, o, layer, family);
      FirstMeaning(before, layer, family);
      assert DefaultFirstAt(obs[..n], obs[n]);
      if Matches(o, layer, family) && HasKey(before, layer, family) {
        KeyHasDefault(before, layer, family);
      }
    }
  }

  lemma {:induction false} KeyHasDefault(obs: seq<Observation>, layer: Layer, family: Family)
    requires DefaultFirst(obs) && layer != LayerTCP && family != NoFamily
    requires HasKey(obs, layer, family)
    ensures HasCanonical(obs, layer, family)
  {
    var i :| 0 <= i < |obs| && Matches(obs[i], layer, family);
    assert DefaultFirstAt(obs[..i], obs[i]);
    if !IsCanonical(obs[i].experiment.spec) {
      var before := obs[..i];
      forall j | 0 <= j < |before| ensures DefaultFirstAt(before[..j], before[j]) {
        assert before[..j] == obs[..j] && before[j] == obs[j];
        assert DefaultFirstAt(obs[..j], obs[j]);
      }
      KeyHasDefault(before, layer, family);
      var j :| 0 <= j < |before| && MatchesDefault(before[j], layer, family);
      assert obs[j] == before[j];
    }
  }
}
