/** Comparing two whole report sets, slug by slug. */
module CompareSets {
  import opened Model
  import opened Text
  import opened Sorting
  import opened Listing
  import opened Compare

  datatype FindingRef = FindingRef(kind: string, confidence: string)

  /** One loaded report: what was observed and what was found. */
  datatype Report = Report(observations: seq<Observation>, findings: seq<FindingRef>)

  type Runs = rs: seq<Report> | |rs| > 0 witness [Report([], [])]

  /** Runs by slug, each slug's runs ordered by run index. */
  type ReportSet = map<string, Runs>

  function FindingKeys(r: Report): set<string> {
    set f | f in r.findings :: f.kind + ":" + f.confidence
  }

  datatype Note = Note(side: char, slug: string, key: string, statuses: seq<Status>)

  datatype Diff = Diff(changes: seq<Change>, onlyInA: seq<string>, onlyInB: seq<string>,
                       findings: seq<FindingChange>)

  datatype Comparison = Comparison(diff: Diff, unstable: seq<Note>)

  // ---------------------------------------------------------------------------------------
  // Keys whose status varies within a set

  function StatusName(s: Status): string {
    match s
    case NoStatus => "" case Pass => "pass" case Fail => "fail" case Timeout => "timeout"
    case Skipped => "skipped" case Unknown => "unknown"
  }

  function AllViews(detail: Detail, runs: seq<Report>): seq<Views> {
    seq(|runs|, i requires 0 <= i < |runs| => ViewsOf(detail, runs[i].observations))
  }

  /** Every key some run viewed, with the statuses it had. */
  function ByKey(vs: seq<Views>): map<Key, set<Status>> {
    if |vs| == 0 then map[]
    else
      Merged(ByKey(vs[..|vs| - 1]), vs[|vs| - 1], vs[|vs| - 1].Keys)
  }

  /** `byKey` with the statuses of some keys of `v` added. */
  function Merged(byKey: map<Key, set<Status>>, v: Views, some: set<Key>): map<Key, set<Status>>
    requires some <= v.Keys
  {
    map k | k in byKey.Keys + some ::
      (if k in byKey then byKey[k] else {}) + if k in some then {v[k].status} else {}
  }

  ghost predicate IsNotes(side: char, slug: string, byKey: map<Key, set<Status>>, ks: seq<Key>, out: seq<Note>)
    requires forall k :: k in ks ==> k in byKey
  {
    if |ks| == 0 then out == []
    else
      var n := |ks| - 1;
      assert ks[n] in ks;
      if |byKey[ks[n]]| < 2 then IsNotes(side, slug, byKey, ks[..n], out)
      else
        && |out| > 0 && IsNotes(side, slug, byKey, ks[..n], out[..|out| - 1])
        && out[|out| - 1] == Note(side, slug, KeyText(ks[n]), out[|out| - 1].statuses)
        && IsListing(StatusName, byKey[ks[n]], out[|out| - 1].statuses)
  }

  ghost predicate IsInstability(detail: Detail, side: char, slug: string, runs: seq<Report>, out: seq<Note>) {
    if |runs| < 2 then out == []
    else
      var byKey := ByKey(AllViews(detail, runs));
      exists ks :: IsListing(KeyText, byKey.Keys, ks) && (forall k :: k in ks ==> k in byKey)
                   && IsNotes(side, slug, byKey, ks, out)
  }

  lemma MergeOne(byKey: map<Key, set<Status>>, v: Views, some: set<Key>, k: Key)
    requires some <= v.Keys && k in v && k !in some
    ensures var m := Merged(byKey, v, some);
            Merged(byKey, v, some + {k}) == m[k := (if k in m then m[k] else {}) + {v[k].status}]
  {
    var m, more := Merged(byKey, v, some), Merged(byKey, v, some + {k});
    var updated := m[k := (if k in m then m[k] else {}) + {v[k].status}];
    forall x ensures (x in more <==> x in updated) && (x in more ==> more[x] == updated[x]) {
      assert x in more <==> x in byKey.Keys + (some + {k});
      assert x in m <==> x in byKey.Keys + some;
    }
  }

  method MergeViews(byKey: map<Key, set<Status>>, v: Views) returns (out: map<Key, set<Status>>)
    ensures out == Merged(byKey, v, v.Keys)
  {
    hide Merged;
    out := byKey;
    MergeNone(byKey, v);
    var rest := v.Keys;
    assert v.Keys - rest == {};
    while rest != {}
      invariant rest <= v.Keys && out == Merged(byKey, v, v.Keys - rest)
      decreases |rest|
    {
      var k :| k in rest;
      MergeOne(byKey, v, v.Keys - rest, k);
      assert v.Keys - (rest - {k}) == (v.Keys - rest) + {k};
      out := out[k := (if k in out then out[k] else {}) + {v[k].status}];
      rest := rest - {k};
    }
    assert v.Keys - rest == v.Keys;
  }

  lemma MergeNone(byKey: map<Key, set<Status>>, v: Views)
    ensures Merged(byKey, v, {}) == byKey
  {
    var m := Merged(byKey, v, {});
    forall x ensures (x in m <==> x in byKey) && (x in m ==> m[x] == byKey[x]) {
      assert x in m <==> x in byKey.Keys + {};
    }
  }

  method Gather(detail: Detail, runs: seq<Report>) returns (byKey: map<Key, set<Status>>)
    ensures byKey == ByKey(AllViews(detail, runs))
  {
    hide Merged, ViewsOf;
    byKey := map[];
    ghost var vs := AllViews(detail, runs);
    for i := 0 to |runs|
      invariant byKey == ByKey(vs[..i])
    {
      var v := CollectViews(detail, runs[i].observations);
      assert vs[..i + 1][..i] == vs[..i];
      byKey := MergeViews(byKey, v);
    }
    assert vs[..|runs|] == vs;
  }

  method NotesFor(side: char, slug: string, byKey: map<Key, set<Status>>, ks: seq<Key>) returns (out: seq<Note>)
    requires forall k :: k in ks ==> k in byKey
    ensures IsNotes(side, slug, byKey, ks, out)
  {
    hide KeyText, Less, IsListing;
    out := [];
    for i := 0 to |ks|
      invariant IsNotes(side, slug, byKey, ks[..i], out)
    {
      assert ks[..i + 1][..i] == ks[..i];
      assert ks[i] in ks;
      if |byKey[ks[i]]| >= 2 {
        var statuses := List(StatusName, byKey[ks[i]]);
        ghost var was := out;
        out := out + [Note(side, slug, KeyText(ks[i]), statuses)];
        assert out[..|out| - 1] == was;
      }
    }
    assert ks[..|ks|] == ks;
  }

  method Instability(detail: Detail, side: char, slug: string, runs: seq<Report>) returns (out: seq<Note>)
    ensures IsInstability(detail, side, slug, runs, out)
  {
    hide KeyText, IsListing, IsNotes, ByKey;
    if |runs| < 2 { return []; }
    var byKey := Gather(detail, runs);
    var ks := List(KeyText, byKey.Keys);
    Unfold(KeyText, byKey.Keys, ks);
    out := NotesFor(side, slug, byKey, ks);
  }

  lemma {:induction false} ByKeyMeaning(vs: seq<Views>, k: Key)
    ensures k in ByKey(vs) <==> exists i :: 0 <= i < |vs| && k in vs[i]
    ensures k in ByKey(vs) ==> forall s :: s in ByKey(vs)[k] <==> exists i :: 0 <= i < |vs| && k in vs[i] && vs[i][k].status == s
  {
    if |vs| > 0 {
      var n := |vs| - 1;
      var before := vs[..n];
      ByKeyMeaning(before, k);
      assert forall i :: 0 <= i < n ==> before[i] == vs[i];
      if k in ByKey(vs) {
        forall s ensures s in ByKey(vs)[k] <==> exists i :: 0 <= i < |vs| && k in vs[i] && vs[i][k].status == s {
          if k in ByKey(before) && s in ByKey(before)[k] {
            var i :| 0 <= i < |before| && k in before[i] && before[i][k].status == s;
            assert k in vs[i] && vs[i][k].status == s;
          }
          if i :| 0 <= i < |vs| && k in vs[i] && vs[i][k].status == s && i < n {
            assert k in before[i] && before[i][k].status == s;
          }
        }
      }
    }
  }

  lemma TwoMembers<T>(s: set<T>)
    ensures |s| >= 2 <==> exists a, b :: a in s && b in s && a != b
  {
    if |s| >= 2 {
      var a :| a in s;
      assert |s - {a}| >= 1;
      var b :| b in s - {a};
    }
    if a, b :| a in s && b in s && a != b {
      assert {a, b} <= s && |{a, b}| == 2;
      assert s == {a, b} + (s - {a, b});
    }
  }

  /** The note of a key whose status varies. */
  ghost predicate IsNoteOf(side: char, slug: string, k: Key, statuses: set<Status>, note: Note) {
    note.side == side && note.slug == slug && note.key == KeyText(k) && IsListing(StatusName, statuses, note.statuses)
  }

  lemma StatusNamesDiffer(s: set<Status>)
    ensures Separate(StatusName, s)
  {
    forall a: Status, b: Status | StatusName(a) == StatusName(b) ensures a == b {
      assert |StatusName(a)| == |StatusName(b)|;
      assert |StatusName(a)| > 0 ==> StatusName(a)[0] == StatusName(b)[0];
    }
  }

  /** The order in which a note lists statuses. */
  function StatusRank(s: Status): nat {
    match s
    case NoStatus => 0 case Fail => 1 case Pass => 2 case Skipped => 3 case Timeout => 4 case Unknown => 5
  }

  lemma NamesByRank(a: Status, b: Status)
    ensures Less(StatusName(a), StatusName(b)) <==> StatusRank(a) < StatusRank(b)
  {
    LessTotal(StatusName(a), StatusName(b));
    assert StatusName(Fail)[0] == 'f' && StatusName(Pass)[0] == 'p' && StatusName(Skipped)[0] == 's'
        && StatusName(Timeout)[0] == 't' && StatusName(Unknown)[0] == 'u';
  }

  /** A note lists every status seen once: fail, pass, skipped, timeout, unknown, in that order. */
  lemma NotesRanked(side: char, slug: string, k: Key, statuses: set<Status>, note: Note)
    requires IsNoteOf(side, slug, k, statuses, note)
    ensures forall s :: s in note.statuses <==> s in statuses
    ensures forall i, j :: 0 <= i < j < |note.statuses| ==> StatusRank(note.statuses[i]) < StatusRank(note.statuses[j])
  {
    hide Less, StatusName, StatusRank, KeyText;
    var xs := note.statuses;
    forall i, j | 0 <= i < j < |xs| ensures StatusRank(xs[i]) < StatusRank(xs[j]) {
      assert xs[i] != xs[j] && !Less(StatusName(xs[j]), StatusName(xs[i]));
      NamesByRank(xs[j], xs[i]);
      if StatusRank(xs[i]) == StatusRank(xs[j]) { RanksDiffer(xs[i], xs[j]); }
    }
  }

  lemma RanksDiffer(a: Status, b: Status)
    requires StatusRank(a) == StatusRank(b)
    ensures a == b
  {
  }

  lemma {:induction false} NotesMeaning(side: char, slug: string, byKey: map<Key, set<Status>>, ks: seq<Key>,
                                        out: seq<Note>, note: Note)
    requires (forall k :: k in ks ==> k in byKey) && IsNotes(side, slug, byKey, ks, out)
    ensures note in out <==> exists k :: k in ks && |byKey[k]| >= 2 && IsNoteOf(side, slug, k, byKey[k], note)
    decreases |ks|
  {
    hide KeyText, IsListing;
    if |ks| > 0 {
      var n := |ks| - 1;
      var k := ks[n];
      assert k in ks && ks == ks[..n] + [k];
      if |byKey[k]| < 2 {
        NotesMeaning(side, slug, byKey, ks[..n], out, note);
      } else {
        var m := |out| - 1;
        NotesMeaning(side, slug, byKey, ks[..n], out[..m], note);
        assert out == out[..m] + [out[m]];
        if IsNoteOf(side, slug, k, byKey[k], note) {
          StatusNamesDiffer(byKey[k]);
          ListingUnique(StatusName, byKey[k], note.statuses, out[m].statuses);
          assert out[m] == note;
        }
      }
    }
  }

  lemma {:induction false} NotesUnique(side: char, slug: string, byKey: map<Key, set<Status>>, ks: seq<Key>,
                                       x: seq<Note>, y: seq<Note>)
    requires forall k :: k in ks ==> k in byKey
    requires IsNotes(side, slug, byKey, ks, x) && IsNotes(side, slug, byKey, ks, y)
    ensures x == y
    decreases |ks|
  {
    hide KeyText, IsListing;
    if |ks| > 0 {
      var n := |ks| - 1;
      assert ks[n] in ks;
      if |byKey[ks[n]]| < 2 {
        NotesUnique(side, slug, byKey, ks[..n], x, y);
      } else {
        NotesUnique(side, slug, byKey, ks[..n], x[..|x| - 1], y[..|y| - 1]);
        StatusNamesDiffer(byKey[ks[n]]);
        ListingUnique(StatusName, byKey[ks[n]], x[|x| - 1].statuses, y[|y| - 1].statuses);
        assert x == x[..|x| - 1] + [x[|x| - 1]] && y == y[..|y| - 1] + [y[|y| - 1]];
      }
    }
  }

  /** The same notes filed under another side. */
  function Relabel(notes: seq<Note>, side: char): seq<Note> {
    seq(|notes|, i requires 0 <= i < |notes| => notes[i].(side := side))
  }

  lemma {:induction false} NotesRelabel(side: char, slug: string, byKey: map<Key, set<Status>>, ks: seq<Key>,
                                        out: seq<Note>, other: char)
    requires (forall k :: k in ks ==> k in byKey) && IsNotes(side, slug, byKey, ks, out)
    ensures IsNotes(other, slug, byKey, ks, Relabel(out, other))
    decreases |ks|
  {
    hide KeyText, IsListing;
    if |ks| > 0 {
      var n := |ks| - 1;
      assert ks[n] in ks;
      if |byKey[ks[n]]| < 2 {
        NotesRelabel(side, slug, byKey, ks[..n], out, other);
      } else {
        var m := |out| - 1;
        NotesRelabel(side, slug, byKey, ks[..n], out[..m], other);
        assert Relabel(out, other)[..m] == Relabel(out[..m], other);
      }
    }
  }

  /** Two runs both viewed `k` and saw different statuses. */
  ghost predicate Varies(vs: seq<Views>, k: Key) {
    exists i, j :: 0 <= i < j < |vs| && k in vs[i] && k in vs[j] && vs[i][k].status != vs[j][k].status
  }

  /** The statuses the runs saw at `k`. */
  ghost function Seen(vs: seq<Views>, k: Key): set<Status> {
    set i: nat | i < |vs| && k in vs[i] :: vs[i][k].status
  }

  lemma ByKeyIsSeen(vs: seq<Views>, k: Key)
    requires k in ByKey(vs)
    ensures ByKey(vs)[k] == Seen(vs, k)
  {
    hide ByKey;
    ByKeyMeaning(vs, k);
    forall s ensures s in ByKey(vs)[k] <==> s in Seen(vs, k) {
      if s in ByKey(vs)[k] {
        var i :| 0 <= i < |vs| && k in vs[i] && vs[i][k].status == s;
      }
    }
  }

  /** The note that reports `k` as unstable among `runs`. */
  ghost predicate Reports(detail: Detail, side: char, slug: string, runs: seq<Report>, k: Key, note: Note) {
    Varies(AllViews(detail, runs), k) && IsNoteOf(side, slug, k, Seen(AllViews(detail, runs), k), note)
  }

  /** A point is reported as unstable exactly when two runs of the set both probed it and saw
      different statuses; its note lists all the statuses seen, in order. */
  lemma UnstableIff(detail: Detail, side: char, slug: string, runs: seq<Report>, out: seq<Note>, note: Note)
    requires IsInstability(detail, side, slug, runs, out)
    ensures note in out <==> exists k :: Reports(detail, side, slug, runs, k, note)
  {
    hide KeyText, IsListing, ByKey, Varies, IsNotes, IsNoteOf, Seen;
    var vs := AllViews(detail, runs);
    if |runs| < 2 {
      forall k ensures !Varies(vs, k) { OneRun(vs, k); }
    } else {
      var byKey := ByKey(vs);
      var ks :| IsListing(KeyText, byKey.Keys, ks) && (forall k :: k in ks ==> k in byKey)
                && IsNotes(side, slug, byKey, ks, out);
      Unfold(KeyText, byKey.Keys, ks);
      NotesMeaning(side, slug, byKey, ks, out, note);
      forall k
        ensures Varies(vs, k) <==> k in byKey && |byKey[k]| >= 2
        ensures k in byKey ==> byKey[k] == Seen(vs, k)
      {
        VariesIff(vs, k);
        if k in byKey { ByKeyIsSeen(vs, k); }
      }
      if k :| Reports(detail, side, slug, runs, k, note) {
        assert k in ks && |byKey[k]| >= 2 && IsNoteOf(side, slug, k, byKey[k], note);
      }
      if note in out {
        var k :| k in ks && |byKey[k]| >= 2 && IsNoteOf(side, slug, k, byKey[k], note);
        assert Reports(detail, side, slug, runs, k, note);
      }
    }
  }

  lemma InstabilityUnique(detail: Detail, side: char, slug: string, runs: seq<Report>, x: seq<Note>, y: seq<Note>)
    requires forall r :: r in runs ==> Plain(ViewsOf(detail, r.observations).Keys)
    requires IsInstability(detail, side, slug, runs, x) && IsInstability(detail, side, slug, runs, y)
    ensures x == y
  {
    hide KeyText, IsListing, ByKey, IsNotes, ViewsOf;
    if |runs| >= 2 {
      var vs := AllViews(detail, runs);
      var byKey := ByKey(vs);
      forall k | k in byKey.Keys ensures Free('/', k.layer) {
        ByKeyMeaning(vs, k);
        var i :| 0 <= i < |vs| && k in vs[i];
        assert runs[i] in runs;
      }
      PlainIsSeparate(byKey.Keys);
      var p :| IsListing(KeyText, byKey.Keys, p) && (forall k :: k in p ==> k in byKey) && IsNotes(side, slug, byKey, p, x);
      var q :| IsListing(KeyText, byKey.Keys, q) && (forall k :: k in q ==> k in byKey) && IsNotes(side, slug, byKey, q, y);
      ListingUnique(KeyText, byKey.Keys, p, q);
      NotesUnique(side, slug, byKey, p, x, y);
    }
  }

  lemma InstabilityRelabel(detail: Detail, side: char, slug: string, runs: seq<Report>, out: seq<Note>, other: char)
    requires IsInstability(detail, side, slug, runs, out)
    ensures IsInstability(detail, other, slug, runs, Relabel(out, other))
  {
    hide KeyText, IsListing, ByKey, IsNotes, ViewsOf;
    if |runs| >= 2 {
      var byKey := ByKey(AllViews(detail, runs));
      var ks :| IsListing(KeyText, byKey.Keys, ks) && (forall k :: k in ks ==> k in byKey) && IsNotes(side, slug, byKey, ks, out);
      NotesRelabel(side, slug, byKey, ks, out, other);
    }
  }

  lemma OneRun(vs: seq<Views>, k: Key)
    requires |vs| < 2
    ensures !Varies(vs, k)
  {
  }

  lemma VariesIff(vs: seq<Views>, k: Key)
    ensures Varies(vs, k) <==> k in ByKey(vs) && |ByKey(vs)[k]| >= 2
  {
    hide ByKey;
    ByKeyMeaning(vs, k);
    if k in ByKey(vs) {
      var s := ByKey(vs)[k];
      TwoMembers(s);
      if Varies(vs, k) {
        var i, j :| 0 <= i < j < |vs| && k in vs[i] && k in vs[j] && vs[i][k].status != vs[j][k].status;
        assert vs[i][k].status in s && vs[j][k].status in s;
      }
      if a, b :| a in s && b in s && a != b {
        var i :| 0 <= i < |vs| && k in vs[i] && vs[i][k].status == a;
        var j :| 0 <= j < |vs| && k in vs[j] && vs[j][k].status == b;
        if j < i { assert vs[j][k].status != vs[i][k].status; }
      }
    }
  }

  // ---------------------------------------------------------------------------------------
  // The whole comparison

  function Views0(detail: Detail, s: ReportSet, slug: string): Views
    requires slug in s
  {
    ViewsOf(detail, s[slug][0].observations)
  }

  /** What one slug contributes. */
  ghost predicate IsPart(detail: Detail, a: ReportSet, b: ReportSet, slug: string, part: Diff) {
    if slug !in b then part == Diff([], [slug], [], [])
    else if slug !in a then part == Diff([], [], [slug], [])
    else
      && part.onlyInA == [] && part.onlyInB == []
      && IsDiff(slug, Views0(detail, a, slug), Views0(detail, b, slug), part.changes)
      && IsFindingDiff(slug, FindingKeys(a[slug][0]), FindingKeys(b[slug][0]), part.findings)
  }

  function Plus(x: Diff, y: Diff): Diff {
    Diff(x.changes + y.changes, x.onlyInA + y.onlyInA, x.onlyInB + y.onlyInB, x.findings + y.findings)
  }

  function Joined(parts: seq<Diff>): Diff {
    if |parts| == 0 then Diff([], [], [], []) else Plus(Joined(parts[..|parts| - 1]), parts[|parts| - 1])
  }

  ghost predicate AreParts(detail: Detail, a: ReportSet, b: ReportSet, slugs: seq<string>, parts: seq<Diff>) {
    |parts| == |slugs| && forall i :: 0 <= i < |slugs| ==> IsPart(detail, a, b, slugs[i], parts[i])
  }

  /** `d` joins the parts of all slugs of both sets, in order. */
  ghost predicate IsDiffOf(detail: Detail, a: ReportSet, b: ReportSet, d: Diff) {
    exists slugs: seq<string>, parts: seq<Diff> :: IsListing(Same, a.Keys + b.Keys, slugs)
                           && AreParts(detail, a, b, slugs, parts) && d == Joined(parts)
  }

  ghost predicate IsUnstable(detail: Detail, a: ReportSet, b: ReportSet, slugs: seq<string>, notes: seq<Note>) {
    if |slugs| == 0 then notes == []
    else
      var slug := slugs[|slugs| - 1];
      exists before, na, nb :: IsUnstable(detail, a, b, slugs[..|slugs| - 1], before) && notes == before + na + nb
        && if slug in a && slug in b
           then IsInstability(detail, 'A', slug, a[slug], na) && IsInstability(detail, 'B', slug, b[slug], nb)
           else na == [] && nb == []
  }

  /** A result: the parts of all slugs joined, and the notes of all slugs, in slug order. */
  ghost predicate IsComparison(detail: Detail, a: ReportSet, b: ReportSet, res: Comparison) {
    IsDiffOf(detail, a, b, res.diff)
    && exists slugs :: IsListing(Same, a.Keys + b.Keys, slugs) && IsUnstable(detail, a, b, slugs, res.unstable)
  }

  method CompareSets(detail: Detail, a: ReportSet, b: ReportSet) returns (res: Comparison)
    ensures IsComparison(detail, a, b, res)
  {
    hide IsListing, Less, IsDiff, IsFindingDiff, IsInstability, ViewsOf, IsPart, IsUnstable, Plus, FindingKeys;
    var ordered := List(Same, a.Keys + b.Keys);
    assert ordered[..0] == [];
    NothingUnstable(detail, a, b);
    ghost var parts: seq<Diff> := [];
    var diff, unstable := Diff([], [], [], []), [];
    for i := 0 to |ordered|
      invariant AreParts(detail, a, b, ordered[..i], parts) && diff == Joined(parts)
      invariant IsUnstable(detail, a, b, ordered[..i], unstable)
    {
      var slug := ordered[i];
      ghost var before := unstable;
      Unfold(Same, a.Keys + b.Keys, ordered);
      assert slug in a.Keys + b.Keys;
      var part, na, nb := Diff([], [], [], []), [], [];
      if slug !in b {
        part := Diff([], [slug], [], []);
      } else if slug !in a {
        part := Diff([], [], [slug], []);
      } else {
        var va := CollectViews(detail, a[slug][0].observations);
        var vb := CollectViews(detail, b[slug][0].observations);
        var changes := DiffViews(slug, va, vb);
        var findings := DiffFindings(slug, FindingKeys(a[slug][0]), FindingKeys(b[slug][0]));
        part := Diff(changes, [], [], findings);
        na := Instability(detail, 'A', slug, a[slug]);
        nb := Instability(detail, 'B', slug, b[slug]);
      }
      assert IsPart(detail, a, b, slug, part) by { PartIs(detail, a, b, slug, part); }
      OneMorePart(detail, a, b, ordered, i, parts, part);
      parts := parts + [part];
      diff := Plus(diff, part);
      unstable := unstable + na + nb;
      OneMoreUnstable(detail, a, b, ordered, i, before, na, nb);
    }
    assert ordered[..|ordered|] == ordered;
    res := Comparison(diff, unstable);
  }

  lemma NothingUnstable(detail: Detail, a: ReportSet, b: ReportSet)
    ensures IsUnstable(detail, a, b, [], [])
  {
  }

  lemma PartIs(detail: Detail, a: ReportSet, b: ReportSet, slug: string, part: Diff)
    requires slug !in b ==> part == Diff([], [slug], [], [])
    requires slug in b && slug !in a ==> part == Diff([], [], [slug], [])
    requires slug in a && slug in b ==>
               && part.onlyInA == [] && part.onlyInB == []
               && IsDiff(slug, Views0(detail, a, slug), Views0(detail, b, slug), part.changes)
               && IsFindingDiff(slug, FindingKeys(a[slug][0]), FindingKeys(b[slug][0]), part.findings)
    ensures IsPart(detail, a, b, slug, part)
  {
    hide IsDiff, IsFindingDiff, ViewsOf, FindingKeys;
  }

  lemma OneMorePart(detail: Detail, a: ReportSet, b: ReportSet, slugs: seq<string>, i: nat, parts: seq<Diff>, part: Diff)
    requires i < |slugs| && AreParts(detail, a, b, slugs[..i], parts) && IsPart(detail, a, b, slugs[i], part)
    ensures AreParts(detail, a, b, slugs[..i + 1], parts + [part])
    ensures Joined(parts + [part]) == Plus(Joined(parts), part)
  {
    hide IsPart, Plus;
    assert (parts + [part])[..|parts|] == parts;
  }

  lemma OneMoreUnstable(detail: Detail, a: ReportSet, b: ReportSet, slugs: seq<string>, i: nat,
                        before: seq<Note>, na: seq<Note>, nb: seq<Note>)
    requires i < |slugs| && IsUnstable(detail, a, b, slugs[..i], before)
    requires if slugs[i] in a && slugs[i] in b
             then IsInstability(detail, 'A', slugs[i], a[slugs[i]], na) && IsInstability(detail, 'B', slugs[i], b[slugs[i]], nb)
             else na == [] && nb == []
    ensures IsUnstable(detail, a, b, slugs[..i + 1], before + na + nb)
  {
    hide IsInstability;
    assert slugs[..i + 1][..i] == slugs[..i];
  }

  // ---------------------------------------------------------------------------------------
  // Facts about the comparison

  /** No layer name in any run contains the separator. */
  ghost predicate PlainSet(detail: Detail, a: ReportSet) {
    forall slug, r :: slug in a && r in a[slug] ==> Plain(ViewsOf(detail, r.observations).Keys)
  }

  ghost predicate AllPlain(detail: Detail, a: ReportSet, b: ReportSet) {
    PlainSet(detail, a) && PlainSet(detail, b)
  }

  lemma FirstRunPlain(detail: Detail, a: ReportSet, slug: string)
    requires PlainSet(detail, a) && slug in a
    ensures Plain(Views0(detail, a, slug).Keys)
  {
    hide ViewsOf, Plain;
    assert a[slug][0] in a[slug];
  }

  lemma PartUnique(detail: Detail, a: ReportSet, b: ReportSet, slug: string, x: Diff, y: Diff)
    requires AllPlain(detail, a, b) && IsPart(detail, a, b, slug, x) && IsPart(detail, a, b, slug, y)
    ensures x == y
  {
    hide IsFindingDiff, KeyText, IsListing, ViewsOf;
    if slug in a && slug in b {
      var va, vb := Views0(detail, a, slug), Views0(detail, b, slug);
      FindingDiffUnique(slug, FindingKeys(a[slug][0]), FindingKeys(b[slug][0]), x.findings, y.findings);
      FirstRunPlain(detail, a, slug);
      FirstRunPlain(detail, b, slug);
      PlainIsSeparate(va.Keys + vb.Keys);
      var p :| IsListing(KeyText, va.Keys + vb.Keys, p) && x.changes == Changes(slug, va, vb, p);
      var q :| IsListing(KeyText, va.Keys + vb.Keys, q) && y.changes == Changes(slug, va, vb, q);
      ListingUnique(KeyText, va.Keys + vb.Keys, p, q);
    }
  }

  lemma DiffUnique(detail: Detail, a: ReportSet, b: ReportSet, x: Diff, y: Diff)
    requires AllPlain(detail, a, b) && IsDiffOf(detail, a, b, x) && IsDiffOf(detail, a, b, y)
    ensures x == y
  {
    hide IsListing, IsPart, AllPlain, Joined;
    var s: seq<string>, p: seq<Diff> :| IsListing(Same, a.Keys + b.Keys, s) && AreParts(detail, a, b, s, p) && x == Joined(p);
    var t: seq<string>, q: seq<Diff> :| IsListing(Same, a.Keys + b.Keys, t) && AreParts(detail, a, b, t, q) && y == Joined(q);
    StringsAreSeparate(a.Keys + b.Keys);
    ListingUnique(Same, a.Keys + b.Keys, s, t);
    forall i | 0 <= i < |s| ensures p[i] == q[i] { PartUnique(detail, a, b, s[i], p[i], q[i]); }
    assert p == q;
  }

  function Filter<T>(p: T -> bool, xs: seq<T>): seq<T> {
    if |xs| == 0 then []
    else Filter(p, xs[..|xs| - 1]) + if p(xs[|xs| - 1]) then [xs[|xs| - 1]] else []
  }

  lemma {:induction false} FilterPlus<T>(p: T -> bool, x: seq<T>, y: seq<T>)
    ensures Filter(p, x + y) == Filter(p, x) + Filter(p, y)
  {
    if |y| == 0 {
      assert x + y == x;
    } else {
      var n := |y| - 1;
      FilterPlus(p, x, y[..n]);
      assert (x + y)[..|x + y| - 1] == x + y[..n];
    }
  }

  lemma {:induction false} FilterAll<T(!new)>(p: T -> bool, xs: seq<T>, all: bool)
    requires forall x :: x in xs ==> p(x) == all
    ensures Filter(p, xs) == if all then xs else []
  {
    if |xs| > 0 {
      var n := |xs| - 1;
      var before, last := xs[..n], xs[n];
      assert p(last) == all by { assert last in xs; }
      forall x | x in before ensures p(x) == all { assert x in xs; }
      FilterAll(p, before, all);
      assert xs == before + [last];
    }
  }

  lemma {:induction false} FilterMember<T(!new)>(p: T -> bool, xs: seq<T>, x: T)
    ensures x in Filter(p, xs) <==> x in xs && p(x)
  {
    if |xs| > 0 {
      var n := |xs| - 1;
      FilterMember(p, xs[..n], x);
      assert xs == xs[..n] + [xs[n]];
    }
  }

  function OfSlug(slug: string): Change -> bool { (c: Change) => c.slug == slug }
  function FindingOfSlug(slug: string): FindingChange -> bool { (c: FindingChange) => c.slug == slug }
  function NoteAt(slug: string, side: char): Note -> bool { (n: Note) => n.slug == slug && n.side == side }

  /** What a comparison reports for one slug. */
  function ChangesOf(cs: seq<Change>, slug: string): seq<Change> { Filter(OfSlug(slug), cs) }
  function FindingsOf(fs: seq<FindingChange>, slug: string): seq<FindingChange> { Filter(FindingOfSlug(slug), fs) }
  function NotesOf(notes: seq<Note>, slug: string, side: char): seq<Note> { Filter(NoteAt(slug, side), notes) }

  lemma {:induction false} SlugOfChanges(slug: string, va: Views, vb: Views, ks: seq<Key>)
    ensures forall c :: c in Changes(slug, va, vb, ks) ==> c.slug == slug
  {
    if |ks| > 0 { SlugOfChanges(slug, va, vb, ks[..|ks| - 1]); }
  }

  lemma PartSlug(detail: Detail, a: ReportSet, b: ReportSet, slug: string, part: Diff, other: string)
    requires IsPart(detail, a, b, slug, part)
    ensures ChangesOf(part.changes, other) == if slug == other then part.changes else []
    ensures FindingsOf(part.findings, other) == if slug == other then part.findings else []
  {
    hide ViewsOf, IsListing, Filter;
    FilterAll(OfSlug(other), [], slug == other);
    FilterAll(FindingOfSlug(other), part.findings, slug == other);
    if slug in a && slug in b {
      var va, vb := Views0(detail, a, slug), Views0(detail, b, slug);
      var ks :| IsListing(KeyText, va.Keys + vb.Keys, ks) && part.changes == Changes(slug, va, vb, ks);
      SlugOfChanges(slug, va, vb, ks);
      FilterAll(OfSlug(other), part.changes, slug == other);
    }
  }

  lemma JoinedLast(detail: Detail, a: ReportSet, b: ReportSet, slugs: seq<string>, parts: seq<Diff>, slug: string)
    requires |slugs| > 0 && AreParts(detail, a, b, slugs, parts)
    ensures var n := |slugs| - 1;
            && AreParts(detail, a, b, slugs[..n], parts[..n])
            && ChangesOf(Joined(parts).changes, slug)
               == ChangesOf(Joined(parts[..n]).changes, slug) + (if slugs[n] == slug then parts[n].changes else [])
            && FindingsOf(Joined(parts).findings, slug)
               == FindingsOf(Joined(parts[..n]).findings, slug) + (if slugs[n] == slug then parts[n].findings else [])
  {
    hide IsPart, Filter;
    var n := |slugs| - 1;
    FilterPlus(OfSlug(slug), Joined(parts[..n]).changes, parts[n].changes);
    FilterPlus(FindingOfSlug(slug), Joined(parts[..n]).findings, parts[n].findings);
    PartSlug(detail, a, b, slugs[n], parts[n], slug);
  }

  lemma {:induction false} JoinedOf(detail: Detail, a: ReportSet, b: ReportSet,
                                    slugs: seq<string>, parts: seq<Diff>, slug: string)
    requires AreParts(detail, a, b, slugs, parts) && Distinct(slugs)
    ensures slug !in slugs ==> ChangesOf(Joined(parts).changes, slug) == [] && FindingsOf(Joined(parts).findings, slug) == []
    ensures forall i :: 0 <= i < |slugs| && slugs[i] == slug ==>
              && ChangesOf(Joined(parts).changes, slug) == parts[i].changes
              && FindingsOf(Joined(parts).findings, slug) == parts[i].findings
    decreases |slugs|
  {
    hide IsPart, Filter, Joined, ChangesOf, FindingsOf;
    if |slugs| > 0 {
      var n := |slugs| - 1;
      JoinedOf(detail, a, b, slugs[..n], parts[..n], slug);
      JoinedLast(detail, a, b, slugs, parts, slug);
      assert slugs[n] !in slugs[..n];
      assert slug in slugs <==> slug in slugs[..n] || slug == slugs[n];
    } else {
      NothingJoined(slug);
    }
  }

  lemma NothingJoined(slug: string)
    ensures ChangesOf(Joined([]).changes, slug) == [] && FindingsOf(Joined([]).findings, slug) == []
  {
    hide Filter;
    FilterAll(OfSlug(slug), [], true);
    FilterAll(FindingOfSlug(slug), [], true);
  }

  /** Carrying out the finding changes. */
  function PatchFindings(found: set<string>, fs: seq<FindingChange>): set<string> {
    if |fs| == 0 then found
    else
      var c := fs[|fs| - 1];
      (PatchFindings(found, fs[..|fs| - 1]) - set x | x in c.removed) + set x | x in c.added
  }

  lemma OneFindingPatch(slug: string, fa: set<string>, fb: set<string>, out: seq<FindingChange>)
    requires IsFindingDiff(slug, fa, fb, out)
    ensures PatchFindings(fa, out) == fb
  {
    hide IsListing;
    FindingsArePatch(slug, fa, fb, out);
    if out != [] { assert out[..0] == []; }
  }

  /** Compare is a lossless patch: for each slug in both sets, the changes reported for it,
      carried out on A's views and findings, rebuild B's exactly. */
  lemma ComparisonIsPatch(detail: Detail, a: ReportSet, b: ReportSet, res: Comparison, slug: string)
    requires IsComparison(detail, a, b, res) && slug in a && slug in b
    ensures Plain(Views0(detail, a, slug).Keys + Views0(detail, b, slug).Keys) ==>
              Patch(Views0(detail, a, slug), ChangesOf(res.diff.changes, slug)) == Views0(detail, b, slug)
    ensures PatchFindings(FindingKeys(a[slug][0]), FindingsOf(res.diff.findings, slug)) == FindingKeys(b[slug][0])
  {
    hide IsListing, Joined, Filter, ViewsOf, IsDiff, IsFindingDiff, Patch, IsUnstable;
    var slugs: seq<string>, parts: seq<Diff> :| IsListing(Same, a.Keys + b.Keys, slugs)
      && AreParts(detail, a, b, slugs, parts) && res.diff == Joined(parts);
    Unfold(Same, a.Keys + b.Keys, slugs);
    JoinedOf(detail, a, b, slugs, parts, slug);
    assert slug in slugs;
    var i :| 0 <= i < |slugs| && slugs[i] == slug;
    assert IsPart(detail, a, b, slugs[i], parts[i]);
    if Plain(Views0(detail, a, slug).Keys + Views0(detail, b, slug).Keys) {
      ChangesArePatch(slug, Views0(detail, a, slug), Views0(detail, b, slug), parts[i].changes);
    }
    OneFindingPatch(slug, FindingKeys(a[slug][0]), FindingKeys(b[slug][0]), parts[i].findings);
  }

  function MirrorFindings(fs: seq<FindingChange>): seq<FindingChange> {
    seq(|fs|, i requires 0 <= i < |fs| => FindingChange(fs[i].slug, fs[i].removed, fs[i].added))
  }

  function Mirror(d: Diff): Diff {
    Diff(MirrorChanges(d.changes), d.onlyInB, d.onlyInA, MirrorFindings(d.findings))
  }

  lemma PartMirror(detail: Detail, a: ReportSet, b: ReportSet, slug: string, part: Diff)
    requires slug in a || slug in b
    requires IsPart(detail, a, b, slug, part)
    ensures IsPart(detail, b, a, slug, Mirror(part))
  {
    hide IsListing, IsDiff, ViewsOf;
    if slug in a && slug in b {
      DiffMirror(slug, Views0(detail, a, slug), Views0(detail, b, slug), part.changes);
      FindingsArePatch(slug, FindingKeys(a[slug][0]), FindingKeys(b[slug][0]), part.findings);
    }
  }

  lemma {:induction false} JoinedMirror(parts: seq<Diff>)
    ensures Joined(seq(|parts|, i requires 0 <= i < |parts| => Mirror(parts[i]))) == Mirror(Joined(parts))
  {
    var mirrored := seq(|parts|, i requires 0 <= i < |parts| => Mirror(parts[i]));
    if |parts| > 0 {
      var n := |parts| - 1;
      JoinedMirror(parts[..n]);
      assert mirrored[..n] == seq(n, i requires 0 <= i < n => Mirror(parts[..n][i]));
      assert Mirror(Plus(Joined(parts[..n]), parts[n])) == Plus(Mirror(Joined(parts[..n])), Mirror(parts[n]));
    }
  }

  lemma DiffMirrored(detail: Detail, a: ReportSet, b: ReportSet, d: Diff)
    requires IsDiffOf(detail, a, b, d)
    ensures IsDiffOf(detail, b, a, Mirror(d))
  {
    hide IsListing, IsPart, Mirror, Joined;
    var slugs: seq<string>, parts: seq<Diff> :| IsListing(Same, a.Keys + b.Keys, slugs) && AreParts(detail, a, b, slugs, parts) && d == Joined(parts);
    var mirrored := seq(|parts|, i requires 0 <= i < |parts| => Mirror(parts[i]));
    Unfold(Same, a.Keys + b.Keys, slugs);
    forall i | 0 <= i < |slugs| ensures IsPart(detail, b, a, slugs[i], mirrored[i]) {
      assert slugs[i] in slugs;
      PartMirror(detail, a, b, slugs[i], parts[i]);
    }
    JoinedMirror(parts);
    assert b.Keys + a.Keys == a.Keys + b.Keys;
    assert AreParts(detail, b, a, slugs, mirrored);
  }

  lemma SelfDiff(detail: Detail, a: ReportSet, d: Diff)
    requires IsDiffOf(detail, a, a, d)
    ensures d == Diff([], [], [], [])
  {
    hide IsListing, IsPart;
    var slugs: seq<string>, parts: seq<Diff> :| IsListing(Same, a.Keys + a.Keys, slugs) && AreParts(detail, a, a, slugs, parts) && d == Joined(parts);
    Unfold(Same, a.Keys + a.Keys, slugs);
    forall i | 0 <= i < |slugs| ensures parts[i] == Diff([], [], [], []) {
      assert slugs[i] in slugs;
      SelfPart(detail, a, slugs[i], parts[i]);
    }
    JoinedNothing(parts);
  }

  lemma SelfPart(detail: Detail, a: ReportSet, slug: string, part: Diff)
    requires slug in a && IsPart(detail, a, a, slug, part)
    ensures part == Diff([], [], [], [])
  {
    hide IsListing, IsDiff, ViewsOf;
    NoChangesIff(slug, Views0(detail, a, slug), Views0(detail, a, slug), part.changes);
  }

  lemma {:induction false} JoinedNothing(parts: seq<Diff>)
    requires forall i :: 0 <= i < |parts| ==> parts[i] == Diff([], [], [], [])
    ensures Joined(parts) == Diff([], [], [], [])
  {
    if |parts| > 0 { JoinedNothing(parts[..|parts| - 1]); }
  }

  // ---------------------------------------------------------------------------------------
  // The notes of the whole comparison

  /** The runs that a side's notes about a slug are drawn from. */
  ghost function SideRuns(a: ReportSet, b: ReportSet, slug: string, side: char): seq<Report> {
    if slug !in a || slug !in b then []
    else if side == 'A' then a[slug]
    else if side == 'B' then b[slug]
    else []
  }

  lemma NotesHaveSlug(detail: Detail, side: char, slug: string, runs: seq<Report>, out: seq<Note>)
    requires IsInstability(detail, side, slug, runs, out)
    ensures forall n :: n in out ==> n.slug == slug && n.side == side
  {
    hide AllViews, Varies, Seen, IsListing, KeyText, IsInstability;
    forall n | n in out ensures n.slug == slug && n.side == side {
      UnstableIff(detail, side, slug, runs, out, n);
    }
  }

  lemma FilterInstability(detail: Detail, side: char, slug: string, runs: seq<Report>, out: seq<Note>,
                          at: string, on: char)
    requires IsInstability(detail, side, slug, runs, out)
    ensures NotesOf(out, at, on) == if at == slug && on == side then out else []
  {
    hide IsInstability;
    NotesHaveSlug(detail, side, slug, runs, out);
    FilterAll(NoteAt(at, on), out, at == slug && on == side);
  }

  lemma NoInstability(detail: Detail, side: char, slug: string)
    ensures IsInstability(detail, side, slug, [], [])
  {
  }

  /** Filtering the notes by slug and side gives back that side's instability. */
  lemma {:induction false} NotesOfSlug(detail: Detail, a: ReportSet, b: ReportSet, slugs: seq<string>,
                                       notes: seq<Note>, slug: string, side: char)
    requires IsUnstable(detail, a, b, slugs, notes) && Distinct(slugs)
    ensures slug in slugs ==> IsInstability(detail, side, slug, SideRuns(a, b, slug, side), NotesOf(notes, slug, side))
    ensures slug !in slugs ==> NotesOf(notes, slug, side) == []
    decreases |slugs|
  {
    hide IsInstability, Filter;
    if |slugs| == 0 {
      FilterAll(NoteAt(slug, side), [], false);
    } else {
      var n := |slugs| - 1;
      var last := slugs[n];
      assert last !in slugs[..n] && forall x :: x in slugs <==> x in slugs[..n] || x == last;
      var before, na, nb :| IsUnstable(detail, a, b, slugs[..n], before) && notes == before + na + nb
        && if last in a && last in b
           then IsInstability(detail, 'A', last, a[last], na) && IsInstability(detail, 'B', last, b[last], nb)
           else na == [] && nb == [];
      NotesOfSlug(detail, a, b, slugs[..n], before, slug, side);
      NoInstability(detail, side, slug);
      if last in a && last in b {
        NotesOfLast(detail, a, b, last, before, na, nb, slug, side);
        assert NotesOf(notes, slug, side) == NotesOf(before, slug, side)
               + if slug != last then [] else if side == 'A' then na else if side == 'B' then nb else [];
        if slug == last {
          assert NotesOf(before, slug, side) == [];
          assert NotesOf(notes, slug, side) == if side == 'A' then na else if side == 'B' then nb else [];
        } else {
          assert NotesOf(notes, slug, side) == NotesOf(before, slug, side);
        }
      } else {
        assert notes == before;
      }
    }
  }

  lemma NotesOfLast(detail: Detail, a: ReportSet, b: ReportSet, last: string, before: seq<Note>, na: seq<Note>, nb: seq<Note>,
                    slug: string, side: char)
    requires last in a && last in b
    requires IsInstability(detail, 'A', last, a[last], na) && IsInstability(detail, 'B', last, b[last], nb)
    ensures NotesOf(before + na + nb, slug, side) == NotesOf(before, slug, side)
            + if slug != last then [] else if side == 'A' then na else if side == 'B' then nb else []
  {
    hide IsInstability, Filter;
    FilterPlus(NoteAt(slug, side), before + na, nb);
    FilterPlus(NoteAt(slug, side), before, na);
    FilterInstability(detail, 'A', last, a[last], na, slug, side);
    FilterInstability(detail, 'B', last, b[last], nb, slug, side);
  }

  /** The notes are exactly the unstable points of the slugs in both sets, on either side. */
  lemma NotesExactly(detail: Detail, a: ReportSet, b: ReportSet, res: Comparison, note: Note)
    requires IsComparison(detail, a, b, res)
    ensures note in res.unstable <==>
            exists k :: Reports(detail, note.side, note.slug, SideRuns(a, b, note.slug, note.side), k, note)
  {
    hide IsListing, IsInstability, IsUnstable, Filter, IsDiffOf, Reports;
    var slugs :| IsListing(Same, a.Keys + b.Keys, slugs) && IsUnstable(detail, a, b, slugs, res.unstable);
    Unfold(Same, a.Keys + b.Keys, slugs);
    NotesOfSlug(detail, a, b, slugs, res.unstable, note.slug, note.side);
    FilterMember(NoteAt(note.slug, note.side), res.unstable, note);
    if note.slug in slugs {
      UnstableIff(detail, note.side, note.slug, SideRuns(a, b, note.slug, note.side),
                  NotesOf(res.unstable, note.slug, note.side), note);
    } else {
      NoInstability(detail, note.side, note.slug);
      UnstableIff(detail, note.side, note.slug, [], [], note);
    }
  }

  lemma {:induction false} UnstableUnique(detail: Detail, a: ReportSet, b: ReportSet, slugs: seq<string>,
                                          x: seq<Note>, y: seq<Note>)
    requires AllPlain(detail, a, b) && IsUnstable(detail, a, b, slugs, x) && IsUnstable(detail, a, b, slugs, y)
    ensures x == y
    decreases |slugs|
  {
    hide IsInstability, Plain, ViewsOf;
    if |slugs| > 0 {
      var n := |slugs| - 1;
      var last := slugs[n];
      var p, pa, pb :| IsUnstable(detail, a, b, slugs[..n], p) && x == p + pa + pb
        && if last in a && last in b
           then IsInstability(detail, 'A', last, a[last], pa) && IsInstability(detail, 'B', last, b[last], pb)
           else pa == [] && pb == [];
      var q, qa, qb :| IsUnstable(detail, a, b, slugs[..n], q) && y == q + qa + qb
        && if last in a && last in b
           then IsInstability(detail, 'A', last, a[last], qa) && IsInstability(detail, 'B', last, b[last], qb)
           else qa == [] && qb == [];
      UnstableUnique(detail, a, b, slugs[..n], p, q);
      if last in a && last in b {
        InstabilityUnique(detail, 'A', last, a[last], pa, qa);
        InstabilityUnique(detail, 'B', last, b[last], pb, qb);
      }
    }
  }

  /** The comparison, with its notes, does not depend on the iteration order of any map. */
  lemma ComparisonUnique(detail: Detail, a: ReportSet, b: ReportSet, x: Comparison, y: Comparison)
    requires AllPlain(detail, a, b) && IsComparison(detail, a, b, x) && IsComparison(detail, a, b, y)
    ensures x == y
  {
    hide IsListing, IsUnstable, AllPlain, IsDiffOf;
    DiffUnique(detail, a, b, x.diff, y.diff);
    var s :| IsListing(Same, a.Keys + b.Keys, s) && IsUnstable(detail, a, b, s, x.unstable);
    var t :| IsListing(Same, a.Keys + b.Keys, t) && IsUnstable(detail, a, b, t, y.unstable);
    StringsAreSeparate(a.Keys + b.Keys);
    ListingUnique(Same, a.Keys + b.Keys, s, t);
    UnstableUnique(detail, a, b, s, x.unstable, y.unstable);
  }

  function OtherSide(side: char): char {
    if side == 'A' then 'B' else if side == 'B' then 'A' else side
  }

  /** Swapping the two sets mirrors the comparison: added and removed and the two sides of a
      change trade places, and so do the notes of the two sides of every slug. */
  lemma ComparisonMirror(detail: Detail, a: ReportSet, b: ReportSet, x: Comparison, y: Comparison, slug: string, side: char)
    requires AllPlain(detail, a, b) && IsComparison(detail, a, b, x) && IsComparison(detail, b, a, y)
    ensures y.diff == Mirror(x.diff)
    ensures NotesOf(y.unstable, slug, side) == Relabel(NotesOf(x.unstable, slug, OtherSide(side)), side)
  {
    hide IsListing, IsUnstable, IsDiffOf, Mirror, IsInstability, Filter, Plain, ViewsOf;
    DiffMirrored(detail, a, b, x.diff);
    DiffUnique(detail, b, a, y.diff, Mirror(x.diff));
    var s :| IsListing(Same, a.Keys + b.Keys, s) && IsUnstable(detail, a, b, s, x.unstable);
    var t :| IsListing(Same, b.Keys + a.Keys, t) && IsUnstable(detail, b, a, t, y.unstable);
    Unfold(Same, a.Keys + b.Keys, s);
    Unfold(Same, b.Keys + a.Keys, t);
    NotesOfSlug(detail, a, b, s, x.unstable, slug, OtherSide(side));
    NotesOfSlug(detail, b, a, t, y.unstable, slug, side);
    if slug in s {
      var runs := SideRuns(b, a, slug, side);
      assert runs == SideRuns(a, b, slug, OtherSide(side));
      InstabilityRelabel(detail, OtherSide(side), slug, runs, NotesOf(x.unstable, slug, OtherSide(side)), side);
      InstabilityUnique(detail, side, slug, runs, NotesOf(y.unstable, slug, side),
                        Relabel(NotesOf(x.unstable, slug, OtherSide(side)), side));
    }
  }

  /** A set compared with itself shows no differences; its notes are exactly its own unstable
      points, once for each side. */
  lemma SelfComparison(detail: Detail, a: ReportSet, res: Comparison, note: Note)
    requires IsComparison(detail, a, a, res)
    ensures res.diff == Diff([], [], [], [])
    ensures note in res.unstable <==>
            && note.slug in a && (note.side == 'A' || note.side == 'B')
            && exists k :: Reports(detail, note.side, note.slug, a[note.slug], k, note)
  {
    hide IsDiffOf, IsListing, IsUnstable, IsNoteOf, Seen, Varies;
    SelfDiff(detail, a, res.diff);
    NotesExactly(detail, a, a, res, note);
    if note.slug in a && (note.side == 'A' || note.side == 'B') {
      assert SideRuns(a, a, note.slug, note.side) == a[note.slug];
    } else {
      assert SideRuns(a, a, note.slug, note.side) == [];
      forall k ensures !Reports(detail, note.side, note.slug, [], k, note) { OneRun(AllViews(detail, []), k); }
    }
  }
}
