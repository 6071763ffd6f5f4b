/** Diffing two sets of runs (cmd/fairy/compare.go). */
module Compare {
  import opened Model
  import opened Text
  import opened Sorting
  import opened Listing
  import Canonical
  import opened Selectors

  /** A probed point: layer plus address family, empty for any other family. */
  datatype Key = Key(layer: string, family: string)

  function KeyText(k: Key): string {
    if k.family == "" then k.layer else k.layer + "/" + k.family
  }

  datatype View = View(status: Status, detail: string)

  type Views = map<Key, View>

  /** What the comparison keeps of an observation besides its status; a parameter. */
  type Detail = Observation -> string

  function KeyOf(o: Observation): Key {
    var f := o.experiment.spec.family;
    Key(Canonical.LayerName(o.layer), if f == IPv4 || f == IPv6 then Canonical.FamilyName(f) else "")
  }

  function ViewOf(detail: Detail, o: Observation): View {
    View(o.status, detail(o))
  }

  /** The first observation of a key is the one compared. */
  function ViewsOf(detail: Detail, obs: seq<Observation>): Views {
    if |obs| == 0 then map[]
    else
      var n := |obs| - 1;
      var before := ViewsOf(detail, obs[..n]);
      if KeyOf(obs[n]) in before then before else before[KeyOf(obs[n]) := ViewOf(detail, obs[n])]
  }

  method CollectViews(detail: Detail, obs: seq<Observation>) returns (out: Views)
    ensures out == ViewsOf(detail, obs)
  {
    out := map[];
    for i := 0 to |obs|
      invariant out == ViewsOf(detail, obs[..i])
    {
      assert obs[..i + 1][..i] == obs[..i];
      if KeyOf(obs[i]) !in out { out := out[KeyOf(obs[i]) := ViewOf(detail, obs[i])]; }
    }
    assert obs[..|obs|] == obs;
  }

  /** A key is viewed exactly when it was observed, and its view is of its first observation. */
  lemma {:induction false} ViewsMeaning(detail: Detail, obs: seq<Observation>, k: Key)
    ensures k in ViewsOf(detail, obs) <==> exists i :: 0 <= i < |obs| && KeyOf(obs[i]) == k
    ensures k in ViewsOf(detail, obs) ==>
              exists i :: 0 <= i < |obs| && KeyOf(obs[i]) == k && ViewsOf(detail, obs)[k] == ViewOf(detail, obs[i])
                && forall j :: 0 <= j < i ==> KeyOf(obs[j]) != k
  {
    hide KeyOf;
    if |obs| > 0 {
      var n := |obs| - 1;
      var before := obs[..n];
      ViewsMeaning(detail, before, k);
      assert forall i :: 0 <= i < n ==> before[i] == obs[i];
      if k in ViewsOf(detail, before) {
        var i :| 0 <= i < |before| && KeyOf(before[i]) == k && ViewsOf(detail, before)[k] == ViewOf(detail, before[i])
          && forall j :: 0 <= j < i ==> KeyOf(before[j]) != k;
        assert KeyOf(obs[i]) == k;
      }
    }
  }

  /** For an address family, the compared view is of the observation that "first wins" selects. */
  lemma ViewIsFirst(detail: Detail, obs: seq<Observation>, layer: Layer, family: Family)
    requires family == IPv4 || family == IPv6
    requires !layer.LayerOther? && forall o :: o in obs ==> !o.layer.LayerOther?
    ensures var k := Key(Canonical.LayerName(layer), Canonical.FamilyName(family));
            match First(obs, layer, family)
            case None => k !in ViewsOf(detail, obs)
            case Some(o) => k in ViewsOf(detail, obs) && ViewsOf(detail, obs)[k] == ViewOf(detail, o)
  {
    hide Canonical.LayerName, ViewsOf, First;
    var k := Key(Canonical.LayerName(layer), Canonical.FamilyName(family));
    FirstMeaning(obs, layer, family);
    ViewsMeaning(detail, obs, k);
    forall i | 0 <= i < |obs| ensures KeyOf(obs[i]) == k <==> Matches(obs[i], layer, family) {
      assert obs[i] in obs;
      KeyMatches(obs[i], layer, family);
    }
  }

  lemma KeyMatches(o: Observation, layer: Layer, family: Family)
    requires family == IPv4 || family == IPv6
    requires !layer.LayerOther? && !o.layer.LayerOther?
    ensures KeyOf(o) == Key(Canonical.LayerName(layer), Canonical.FamilyName(family)) <==> Matches(o, layer, family)
  {
    hide Canonical.LayerName;
    if Canonical.LayerName(o.layer) == Canonical.LayerName(layer) {
      Canonical.LayerNamesInjective(o.layer, layer);
    }
    assert "ipv4"[3] != "ipv6"[3];
  }

  // ---------------------------------------------------------------------------------------
  // One pair of runs

  datatype ChangeKind = StatusChange | DetailChange | Added | Removed

  /** NoStatus and "" stand for a side that did not probe the key. */
  datatype Change = Change(slug: string, key: string, kind: ChangeKind,
                           a: Status, b: Status, aObs: string, bObs: string)

  function ChangeAt(slug: string, va: Views, vb: Views, k: Key): (r: seq<Change>)
    ensures |r| <= 1
  {
    if k in va && k !in vb then [Change(slug, KeyText(k), Removed, va[k].status, NoStatus, va[k].detail, "")]
    else if k !in va && k in vb then [Change(slug, KeyText(k), Added, NoStatus, vb[k].status, "", vb[k].detail)]
    else if k !in va then []
    else if va[k].status != vb[k].status then
      [Change(slug, KeyText(k), StatusChange, va[k].status, vb[k].status, va[k].detail, vb[k].detail)]
    else if va[k].detail != vb[k].detail then
      [Change(slug, KeyText(k), DetailChange, va[k].status, vb[k].status, va[k].detail, vb[k].detail)]
    else []
  }

  function Changes(slug: string, va: Views, vb: Views, ks: seq<Key>): seq<Change> {
    if |ks| == 0 then []
    else Changes(slug, va, vb, ks[..|ks| - 1]) + ChangeAt(slug, va, vb, ks[|ks| - 1])
  }

  /** `cs` are the changes between the two views, listed by key text. */
  ghost predicate IsDiff(slug: string, va: Views, vb: Views, cs: seq<Change>) {
    exists ks :: IsListing(KeyText, va.Keys + vb.Keys, ks) && cs == Changes(slug, va, vb, ks)
  }

  method DiffViews(slug: string, va: Views, vb: Views) returns (out: seq<Change>)
    ensures IsDiff(slug, va, vb, out)
  {
    var ks := List(KeyText, va.Keys + vb.Keys);
    out := [];
    for i := 0 to |ks|
      invariant out == Changes(slug, va, vb, ks[..i])
    {
      assert ks[..i + 1][..i] == ks[..i];
      var k := ks[i];
      assert k in va.Keys + vb.Keys;
      if k in va && k !in vb {
        out := out + [Change(slug, KeyText(k), Removed, va[k].status, NoStatus, va[k].detail, "")];
      } else if k !in va && k in vb {
        out := out + [Change(slug, KeyText(k), Added, NoStatus, vb[k].status, "", vb[k].detail)];
      } else if va[k].status != vb[k].status {
        out := out + [Change(slug, KeyText(k), StatusChange, va[k].status, vb[k].status, va[k].detail, vb[k].detail)];
      } else if va[k].detail != vb[k].detail {
        out := out + [Change(slug, KeyText(k), DetailChange, va[k].status, vb[k].status, va[k].detail, vb[k].detail)];
      }
    }
    assert ks[..|ks|] == ks;
  }

  /** Reading a key back from its text. */
  function ParseKey(s: string): Key {
    if FirstIndex('/', s) < |s| then Key(s[..FirstIndex('/', s)], s[FirstIndex('/', s) + 1..]) else Key(s, "")
  }

  /** No layer name contains the separator. */
  ghost predicate Plain(keys: set<Key>) {
    forall k :: k in keys ==> Free('/', k.layer)
  }

  lemma {:induction false} NoSeparator(s: string, sep: char)
    requires Free(sep, s)
    ensures FirstIndex(sep, s) == |s|
  {
    if |s| > 0 { NoSeparator(s[1..], sep); }
  }

  lemma KeyRoundTrip(k: Key)
    requires Free('/', k.layer)
    ensures ParseKey(KeyText(k)) == k
  {
    if k.family == "" {
      NoSeparator(k.layer, '/');
    } else {
      FirstIndexIs(k.layer, k.family, '/');
      var s := k.layer + "/" + k.family;
      assert s == k.layer + ['/'] + k.family;
      assert s[..|k.layer|] == k.layer && s[|k.layer| + 1..] == k.family;
    }
  }

  lemma PlainIsSeparate(keys: set<Key>)
    requires Plain(keys)
    ensures Separate(KeyText, keys)
  {
    hide KeyText;
    forall a, b | a in keys && b in keys && KeyText(a) == KeyText(b) ensures a == b {
      KeyRoundTrip(a);
      KeyRoundTrip(b);
    }
  }

  /** Two keys can only share a text when a layer name contains the separator. */
  lemma SharedText(a: Key, b: Key)
    ensures a != b && KeyText(a) == KeyText(b) ==> '/' in a.layer || '/' in b.layer
  {
    if Free('/', a.layer) && Free('/', b.layer) && KeyText(a) == KeyText(b) {
      KeyRoundTrip(a);
      KeyRoundTrip(b);
    }
  }

  /** Carrying out one change. */
  function Patched(v: Views, c: Change): Views {
    if c.kind == Removed then v - {ParseKey(c.key)} else v[ParseKey(c.key) := View(c.b, c.bObs)]
  }

  function Patch(v: Views, cs: seq<Change>): Views {
    if |cs| == 0 then v else Patched(Patch(v, cs[..|cs| - 1]), cs[|cs| - 1])
  }

  lemma PatchMore(v: Views, cs: seq<Change>, more: seq<Change>)
    requires |more| <= 1
    ensures Patch(v, cs + more) == if more == [] then Patch(v, cs) else Patched(Patch(v, cs), more[0])
  {
    if more == [] {
      assert cs + more == cs;
    } else {
      assert (cs + more)[..|cs|] == cs;
    }
  }

  /** The views with the keys of `done` taken from B and the others from A. */
  function Mixed(va: Views, vb: Views, done: set<Key>): Views {
    map k | k in va.Keys + vb.Keys && (if k in done then k in vb else k in va)
        :: if k in done then vb[k] else va[k]
  }

  lemma {:induction false} PatchMixes(slug: string, va: Views, vb: Views, ks: seq<Key>)
    requires Distinct(ks) && forall k :: k in ks ==> k in va.Keys + vb.Keys && Free('/', k.layer)
    ensures Patch(va, Changes(slug, va, vb, ks)) == Mixed(va, vb, set k | k in ks)
  {
    hide KeyText, ChangeAt, Mixed, Patched, ParseKey, Patch;
    if |ks| > 0 {
      var n := |ks| - 1;
      var k := ks[n];
      var done := set x | x in ks[..n];
      assert k in ks && forall x :: x in ks[..n] ==> x in ks;
      PatchMixes(slug, va, vb, ks[..n]);
      PatchMore(va, Changes(slug, va, vb, ks[..n]), ChangeAt(slug, va, vb, k));
      KeyRoundTrip(k);
      assert k !in done;
      assert (set x | x in ks) == done + {k};
      MixOne(slug, va, vb, done, k);
    } else {
      assert (set k | k in ks) == {};
      MixNone(va, vb);
    }
  }

  lemma MixAll(va: Views, vb: Views)
    ensures Mixed(va, vb, va.Keys + vb.Keys) == vb
  {
  }

  lemma MixNone(va: Views, vb: Views)
    ensures Mixed(va, vb, {}) == va && Patch(va, []) == va
  {
  }

  lemma MixOne(slug: string, va: Views, vb: Views, done: set<Key>, k: Key)
    requires k in va.Keys + vb.Keys && k !in done && ParseKey(KeyText(k)) == k
    ensures var c := ChangeAt(slug, va, vb, k);
            Mixed(va, vb, done + {k}) == if c == [] then Mixed(va, vb, done) else Patched(Mixed(va, vb, done), c[0])
  {
    hide KeyText, ParseKey;
    if k in va && k in vb && va[k] == vb[k] {
      assert ChangeAt(slug, va, vb, k) == [];
    } else {
      assert |ChangeAt(slug, va, vb, k)| == 1;
    }
  }

  /** The changes are a lossless patch: carrying them out on A's views rebuilds B's. */
  lemma ChangesArePatch(slug: string, va: Views, vb: Views, cs: seq<Change>)
    requires IsDiff(slug, va, vb, cs) && Plain(va.Keys + vb.Keys)
    ensures Patch(va, cs) == vb
  {
    var ks :| IsListing(KeyText, va.Keys + vb.Keys, ks) && cs == Changes(slug, va, vb, ks);
    hide KeyText, IsListing, Changes, Patch, Mixed, Less;
    Unfold(KeyText, va.Keys + vb.Keys, ks);
    MixAll(va, vb);
    PatchMixes(slug, va, vb, ks);
    assert (set k | k in ks) == va.Keys + vb.Keys;
  }

  function MirrorKind(kind: ChangeKind): ChangeKind {
    match kind case Added => Removed case Removed => Added case _ => kind
  }

  function MirrorChange(c: Change): Change {
    Change(c.slug, c.key, MirrorKind(c.kind), c.b, c.a, c.bObs, c.aObs)
  }

  function MirrorChanges(cs: seq<Change>): seq<Change> {
    seq(|cs|, i requires 0 <= i < |cs| => MirrorChange(cs[i]))
  }

  lemma {:induction false} ChangesMirror(slug: string, va: Views, vb: Views, ks: seq<Key>)
    ensures Changes(slug, vb, va, ks) == MirrorChanges(Changes(slug, va, vb, ks))
  {
    if |ks| > 0 { ChangesMirror(slug, va, vb, ks[..|ks| - 1]); }
  }

  /** Swapping the sets mirrors the changes; the mirrored changes undo them. */
  lemma DiffMirror(slug: string, va: Views, vb: Views, cs: seq<Change>)
    requires IsDiff(slug, va, vb, cs)
    ensures IsDiff(slug, vb, va, MirrorChanges(cs))
    ensures Plain(va.Keys + vb.Keys) ==> Patch(vb, MirrorChanges(cs)) == va
  {
    hide IsListing, Patch;
    var ks :| IsListing(KeyText, va.Keys + vb.Keys, ks) && cs == Changes(slug, va, vb, ks);
    assert vb.Keys + va.Keys == va.Keys + vb.Keys;
    ChangesMirror(slug, va, vb, ks);
    assert IsDiff(slug, vb, va, MirrorChanges(cs));
    if Plain(va.Keys + vb.Keys) { ChangesArePatch(slug, vb, va, MirrorChanges(cs)); }
  }

  lemma {:induction false} NoChanges(slug: string, va: Views, vb: Views, ks: seq<Key>)
    ensures Changes(slug, va, vb, ks) == [] <==> forall k :: k in ks ==> ChangeAt(slug, va, vb, k) == []
  {
    hide ChangeAt;
    if |ks| > 0 {
      var n := |ks| - 1;
      NoChanges(slug, va, vb, ks[..n]);
      assert ks == ks[..n] + [ks[n]];
    }
  }

  /** Nothing is reported exactly when the two views are the same; in particular a run compared
      with itself shows no changes. */
  lemma NoChangesIff(slug: string, va: Views, vb: Views, cs: seq<Change>)
    requires IsDiff(slug, va, vb, cs)
    ensures cs == [] <==> va == vb
  {
    hide IsListing, KeyText;
    var ks :| IsListing(KeyText, va.Keys + vb.Keys, ks) && cs == Changes(slug, va, vb, ks);
    Unfold(KeyText, va.Keys + vb.Keys, ks);
    NoChanges(slug, va, vb, ks);
    if cs == [] {
      forall k | k in va.Keys + vb.Keys ensures k in va && k in vb && va[k] == vb[k] {
        assert k in ks && ChangeAt(slug, va, vb, k) == [];
      }
      assert va.Keys == vb.Keys;
    }
  }

  // ---------------------------------------------------------------------------------------
  // Findings

  datatype FindingChange = FindingChange(slug: string, added: seq<string>, removed: seq<string>)

  /** Nothing, or what B adds to and removes from A's findings, each in order. */
  ghost predicate IsFindingDiff(slug: string, fa: set<string>, fb: set<string>, out: seq<FindingChange>) {
    if fa == fb then out == []
    else
      && |out| == 1 && out[0].slug == slug
      && IsListing(Same, fb - fa, out[0].added) && IsListing(Same, fa - fb, out[0].removed)
  }

  method DiffFindings(slug: string, fa: set<string>, fb: set<string>) returns (out: seq<FindingChange>)
    ensures IsFindingDiff(slug, fa, fb, out)
  {
    hide Less, IsListing;
    var added := List(Same, fb - fa);
    var removed := List(Same, fa - fb);
    ListedMembers(fb - fa, added);
    ListedMembers(fa - fb, removed);
    out := if |added| > 0 || |removed| > 0 then [FindingChange(slug, added, removed)] else [];
    assert fa == fb <==> fb - fa == {} && fa - fb == {};
  }

  lemma ListedMembers(s: set<string>, xs: seq<string>)
    requires IsListing(Same, s, xs)
    ensures (forall x :: x in xs <==> x in s) && (xs == [] <==> s == {})
  {
    hide Less;
    if xs != [] { assert xs[0] in s; }
  }

  /** The finding changes are a lossless patch too. */
  lemma FindingsArePatch(slug: string, fa: set<string>, fb: set<string>, out: seq<FindingChange>)
    requires IsFindingDiff(slug, fa, fb, out)
    ensures out == [] ==> fa == fb
    ensures out != [] ==> |out| == 1 && fb == (fa - set x | x in out[0].removed) + set x | x in out[0].added
    ensures IsFindingDiff(slug, fb, fa, if out == [] then [] else [FindingChange(slug, out[0].removed, out[0].added)])
  {
    hide IsListing;
    if fa != fb {
      ListedMembers(fb - fa, out[0].added);
      ListedMembers(fa - fb, out[0].removed);
    }
  }

  lemma FindingDiffUnique(slug: string, fa: set<string>, fb: set<string>, x: seq<FindingChange>, y: seq<FindingChange>)
    requires IsFindingDiff(slug, fa, fb, x) && IsFindingDiff(slug, fa, fb, y)
    ensures x == y
  {
    hide IsListing;
    if fa != fb {
      StringsAreSeparate(fb - fa);
      StringsAreSeparate(fa - fb);
      ListingUnique(Same, fb - fa, x[0].added, y[0].added);
      ListingUnique(Same, fa - fb, x[0].removed, y[0].removed);
    }
  }
}
