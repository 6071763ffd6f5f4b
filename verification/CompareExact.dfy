/** Which changes a comparison reports, in terms of the observations and findings of the two runs. */
module CompareExact {
  import opened Model
  import opened Selectors
  import opened Text
  import opened Sorting
  import opened Listing
  import opened Compare
  import opened CompareSets
  import Canonical

  /** No confidence of the report contains the separator. */
  ghost predicate PlainFindings(r: Report) {
    forall f :: f in r.findings ==> Free(':', f.confidence)
  }

  ghost predicate SameFindings(r: Report, q: Report) {
    forall f :: f in r.findings <==> f in q.findings
  }

  /** `text` names a finding of `r` that `q` does not have. */
  ghost predicate NamesLost(r: Report, q: Report, text: string) {
    exists f :: f in r.findings && f !in q.findings && text == f.kind + ":" + f.confidence
  }

  /** `texts` lists the findings of `r` that `q` does not have, in order. */
  ghost predicate ListsLost(r: Report, q: Report, texts: seq<string>) {
    && (forall text :: text in texts <==> NamesLost(r, q, text))
    && (forall f: FindingRef :: Free(':', f.confidence) ==>
          (f.kind + ":" + f.confidence in texts <==> f in r.findings && f !in q.findings))
    && forall i, j :: 0 <= i < j < |texts| ==> Less(texts[i], texts[j])
  }

  lemma NamesDiffer(f: FindingRef, g: FindingRef)
    requires Free(':', f.confidence) && Free(':', g.confidence)
    requires f.kind + ":" + f.confidence == g.kind + ":" + g.confidence
    ensures f == g
  {
    assert f.kind + ":" + f.confidence == f.kind + [':'] + f.confidence;
    assert g.kind + ":" + g.confidence == g.kind + [':'] + g.confidence;
    LastField(f.kind, f.confidence, g.kind, g.confidence, ':');
  }

  lemma HasKeyIff(r: Report, f: FindingRef)
    requires PlainFindings(r) && Free(':', f.confidence)
    ensures f.kind + ":" + f.confidence in FindingKeys(r) <==> f in r.findings
  {
    var text := f.kind + ":" + f.confidence;
    if text in FindingKeys(r) {
      var g :| g in r.findings && g.kind + ":" + g.confidence == text;
      NamesDiffer(f, g);
    }
  }

  lemma KeysSame(r: Report, q: Report)
    requires PlainFindings(r) && PlainFindings(q)
    ensures FindingKeys(r) == FindingKeys(q) <==> SameFindings(r, q)
  {
    if FindingKeys(r) == FindingKeys(q) {
      forall f ensures f in r.findings <==> f in q.findings {
        if f in r.findings || f in q.findings {
          HasKeyIff(r, f);
          HasKeyIff(q, f);
        }
      }
    }
    if SameFindings(r, q) {
      forall text ensures text in FindingKeys(r) <==> text in FindingKeys(q) {}
    }
  }

  lemma LostKeys(r: Report, q: Report, text: string)
    requires PlainFindings(r) && PlainFindings(q)
    ensures text in FindingKeys(r) - FindingKeys(q) <==> NamesLost(r, q, text)
  {
    if text in FindingKeys(r) - FindingKeys(q) {
      var f :| f in r.findings && text == f.kind + ":" + f.confidence;
      HasKeyIff(q, f);
    }
    if f :| f in r.findings && f !in q.findings && text == f.kind + ":" + f.confidence {
      HasKeyIff(q, f);
    }
  }

  lemma LostListed(r: Report, q: Report, texts: seq<string>)
    requires PlainFindings(r) && PlainFindings(q)
    requires IsListing(Same, FindingKeys(r) - FindingKeys(q), texts)
    ensures ListsLost(r, q, texts)
  {
    hide FindingKeys, Less;
    var lost := FindingKeys(r) - FindingKeys(q);
    Unfold(Same, lost, texts);
    forall text ensures text in texts <==> NamesLost(r, q, text) { LostKeys(r, q, text); }
    forall f: FindingRef | Free(':', f.confidence)
      ensures f.kind + ":" + f.confidence in texts <==> f in r.findings && f !in q.findings
    {
      HasKeyIff(r, f);
      HasKeyIff(q, f);
    }
    forall i, j | 0 <= i < j < |texts| ensures Less(texts[i], texts[j]) {
      LessTotal(texts[i], texts[j]);
    }
  }

  lemma FindingDiffOf(detail: Detail, a: ReportSet, b: ReportSet, res: Comparison, slug: string)
    requires IsComparison(detail, a, b, res) && slug in a && slug in b
    ensures IsFindingDiff(slug, FindingKeys(a[slug][0]), FindingKeys(b[slug][0]), FindingsOf(res.diff.findings, slug))
  {
    hide IsListing, Joined, Filter, ViewsOf, IsDiff, IsFindingDiff, IsUnstable, FindingKeys;
    var slugs: seq<string>, parts: seq<Diff> :| IsListing(Same, a.Keys + b.Keys, slugs)
      && AreParts(detail, a, b, slugs, parts) && res.diff == Joined(parts);
    Unfold(Same, a.Keys + b.Keys, slugs);
    JoinedOf(detail, a, b, slugs, parts, slug);
    assert slug in slugs;
    var i :| 0 <= i < |slugs| && slugs[i] == slug;
    assert IsPart(detail, a, b, slugs[i], parts[i]);
  }

  /** For a slug in both sets no finding change is reported exactly when the first runs found the same,
      kind and confidence; else one is, and it adds what only B's run found and removes what only A's
      did, each named kind:confidence and in order. */
  lemma FindingChangesExactly(detail: Detail, a: ReportSet, b: ReportSet, res: Comparison, slug: string)
    requires IsComparison(detail, a, b, res) && slug in a && slug in b
    requires PlainFindings(a[slug][0]) && PlainFindings(b[slug][0])
    ensures var fs, r, q := FindingsOf(res.diff.findings, slug), a[slug][0], b[slug][0];
            && (fs == [] <==> SameFindings(r, q))
            && (fs != [] ==> |fs| == 1 && fs[0].slug == slug && ListsLost(q, r, fs[0].added) && ListsLost(r, q, fs[0].removed))
  {
    hide IsComparison, FindingKeys, Filter, FindingsOf, IsListing, ListsLost, SameFindings, PlainFindings;
    FindingDiffOf(detail, a, b, res, slug);
    var fs, r, q := FindingsOf(res.diff.findings, slug), a[slug][0], b[slug][0];
    KeysSame(r, q);
    if FindingKeys(r) != FindingKeys(q) {
      LostListed(q, r, fs[0].added);
      LostListed(r, q, fs[0].removed);
    }
  }

  // ---------------------------------------------------------------------------------------
  // Points

  /** All layers have one of the six names. */
  ghost predicate KnownLayers(obs: seq<Observation>) {
    forall o :: o in obs ==> !o.layer.LayerOther?
  }

  /** What is reported for a point whose first observations are `a` and `b`. */
  ghost predicate IsChange(detail: Detail, slug: string, text: string, a: Option<Observation>, b: Option<Observation>, c: Change) {
    match (a, b)
    case (None, None) => false
    case (Some(o), None) => c == Change(slug, text, Removed, o.status, NoStatus, detail(o), "")
    case (None, Some(p)) => c == Change(slug, text, Added, NoStatus, p.status, "", detail(p))
    case (Some(o), Some(p)) =>
      && (o.status != p.status || detail(o) != detail(p))
      && c == Change(slug, text, if o.status != p.status then StatusChange else DetailChange, o.status, p.status, detail(o), detail(p))
  }

  lemma {:induction false} ChangesMembers(slug: string, va: Views, vb: Views, ks: seq<Key>, c: Change)
    ensures c in Changes(slug, va, vb, ks) <==> exists k :: k in ks && c in ChangeAt(slug, va, vb, k)
  {
    hide ChangeAt;
    if |ks| > 0 {
      var n := |ks| - 1;
      ChangesMembers(slug, va, vb, ks[..n], c);
      assert ks == ks[..n] + [ks[n]];
    }
  }

  lemma NameIsFree(layer: Layer)
    requires !layer.LayerOther?
    ensures Free('/', Canonical.LayerName(layer))
  {
  }

  lemma ViewedIsFree(detail: Detail, obs: seq<Observation>, k: Key)
    requires KnownLayers(obs) && k in ViewsOf(detail, obs)
    ensures Free('/', k.layer)
  {
    hide ViewsOf, Canonical.LayerName;
    ViewsMeaning(detail, obs, k);
    var i :| 0 <= i < |obs| && KeyOf(obs[i]) == k;
    assert obs[i] in obs;
    NameIsFree(obs[i].layer);
  }

  lemma ChangeHasKey(slug: string, va: Views, vb: Views, k: Key, c: Change)
    requires c in ChangeAt(slug, va, vb, k)
    ensures c.key == KeyText(k) && (k in va || k in vb)
  {
    hide KeyText;
  }

  lemma PointText(layer: Layer, family: Family)
    requires !layer.LayerOther? && (family == IPv4 || family == IPv6)
    ensures var k := Key(Canonical.LayerName(layer), Canonical.FamilyName(family));
            KeyText(k) == Canonical.LayerName(layer) + "/" + Canonical.FamilyName(family) && ParseKey(KeyText(k)) == k
  {
    hide ParseKey, Canonical.LayerName;
    NameIsFree(layer);
    KeyRoundTrip(Key(Canonical.LayerName(layer), Canonical.FamilyName(family)));
  }

  lemma ChangeOfPoint(detail: Detail, slug: string, x: seq<Observation>, y: seq<Observation>, layer: Layer, family: Family, c: Change)
    requires KnownLayers(x) && KnownLayers(y) && !layer.LayerOther? && (family == IPv4 || family == IPv6)
    ensures var k := Key(Canonical.LayerName(layer), Canonical.FamilyName(family));
            c in ChangeAt(slug, ViewsOf(detail, x), ViewsOf(detail, y), k)
            <==> IsChange(detail, slug, KeyText(k), First(x, layer, family), First(y, layer, family), c)
  {
    hide ViewsOf, First, KeyText, Canonical.LayerName;
    ViewIsFirst(detail, x, layer, family);
    ViewIsFirst(detail, y, layer, family);
  }

  /** What is reported for a layer on IPv4 or IPv6 is decided by the first observation of either run: a
      change of status, else of detail, or that only one run has the point; nothing else is reported
      for it. */
  lemma PointChange(detail: Detail, slug: string, x: seq<Observation>, y: seq<Observation>, cs: seq<Change>,
                    layer: Layer, family: Family, c: Change)
    requires IsDiff(slug, ViewsOf(detail, x), ViewsOf(detail, y), cs)
    requires KnownLayers(x) && KnownLayers(y) && !layer.LayerOther? && (family == IPv4 || family == IPv6)
    ensures var text := Canonical.LayerName(layer) + "/" + Canonical.FamilyName(family);
            c in cs && c.key == text <==> IsChange(detail, slug, text, First(x, layer, family), First(y, layer, family), c)
  {
    hide ViewsOf, First, KeyText, ParseKey, ChangeAt, Changes, Canonical.LayerName, IsListing;
    var va, vb := ViewsOf(detail, x), ViewsOf(detail, y);
    var k := Key(Canonical.LayerName(layer), Canonical.FamilyName(family));
    var ks :| IsListing(KeyText, va.Keys + vb.Keys, ks) && cs == Changes(slug, va, vb, ks);
    Unfold(KeyText, va.Keys + vb.Keys, ks);
    ChangesMembers(slug, va, vb, ks, c);
    ChangeOfPoint(detail, slug, x, y, layer, family, c);
    PointText(layer, family);
    if c in cs && c.key == KeyText(k) {
      var l :| l in ks && c in ChangeAt(slug, va, vb, l);
      ChangeHasKey(slug, va, vb, l, c);
      if l in va { ViewedIsFree(detail, x, l); }
      if l in vb { ViewedIsFree(detail, y, l); }
      KeyRoundTrip(l);
    }
    if c in ChangeAt(slug, va, vb, k) {
      ChangeHasKey(slug, va, vb, k, c);
    }
  }
}
