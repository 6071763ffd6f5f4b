/** What a derived slug tells apart, and which targets files are accepted. */
module TargetSlugs {
  import opened Text
  import opened Sorting
  import opened Targets

  /** White space is what Unicode calls White_Space. */
  lemma SpacesAre(c: char)
    ensures IsSpace(c) <==>
            c as int in {0x9, 0xA, 0xB, 0xC, 0xD, 0x20, 0x85, 0xA0, 0x1680, 0x2000, 0x2001, 0x2002, 0x2003, 0x2004, 0x2005, 0x2006,
                         0x2007, 0x2008, 0x2009, 0x200A, 0x2028, 0x2029, 0x202F, 0x205F, 0x3000}
  {
  }

  /** `s` is white space, each field in turn, and white space again, with some between two fields. */
  ghost predicate SplitsInto(s: string, fields: seq<string>) {
    if fields == [] then forall i :: 0 <= i < |s| ==> IsSpace(s[i])
    else
      exists n: nat :: FieldAt(s, n, fields[0]) && SplitsInto(s[n + |fields[0]|..], fields[1..])
  }

  /** The first field stands at `n`. */
  ghost predicate FieldAt(s: string, n: nat, field: string) {
    && n + |field| <= |s| && s[n..n + |field|] == field && Word(field)
    && (forall i :: 0 <= i < n ==> IsSpace(s[i]))
    && (n + |field| < |s| ==> IsSpace(s[n + |field|]))
  }

  lemma {:induction false} SkipSpaceIs(s: string)
    ensures var n := |s| - |SkipSpace(s)|; SkipSpace(s) == s[n..] && forall i :: 0 <= i < n ==> IsSpace(s[i])
  {
    if |s| > 0 && IsSpace(s[0]) {
      SkipSpaceIs(s[1..]);
      var n := |s| - |SkipSpace(s)|;
      forall i | 0 <= i < n ensures IsSpace(s[i]) { if i > 0 { assert s[i] == s[1..][i - 1]; } }
    }
  }

  lemma {:induction false} WordEnds(s: string)
    ensures WordLength(s) < |s| ==> IsSpace(s[WordLength(s)])
  {
    if |s| > 0 && !IsSpace(s[0]) { WordEnds(s[1..]); }
  }

  lemma WordStarts(t: string)
    requires t != "" && !IsSpace(t[0])
    ensures Word(t[..WordLength(t)])
  {
    hide IsSpace, WordLength;
  }

  lemma FirstFieldAt(s: string)
    requires SkipSpace(s) != ""
    ensures var t := SkipSpace(s); FieldAt(s, |s| - |t|, t[..WordLength(t)])
  {
    hide IsSpace, SkipSpace, WordLength, Word;
    var t := SkipSpace(s);
    SkipSpaceIs(s);
    WordEnds(t);
    WordStarts(t);
    var n, k := |s| - |t|, WordLength(t);
    Shifted(s, t, n, k);
  }

  lemma Shifted(s: string, t: string, n: nat, k: nat)
    requires n <= |s| && t == s[n..] && k <= |t|
    ensures s[n..n + k] == t[..k] && (k < |t| ==> t[k] == s[n + k])
  {
  }

  lemma OneMoreField(s: string, n: nat, field: string, rest: string, more: seq<string>)
    requires FieldAt(s, n, field) && rest == s[n + |field|..] && SplitsInto(rest, more)
    ensures SplitsInto(s, [field] + more)
  {
    hide FieldAt, IsSpace;
    var fields := [field] + more;
    assert fields[0] == field && fields[1..] == more;
  }

  lemma Rest(s: string, t: string, n: nat, k: nat)
    requires n <= |s| && t == s[n..] && k <= |t|
    ensures t[k..] == s[n + k..] && |t[..k]| == k
  {
  }

  /** A line is split at white space into its words, all of them and in order. */
  lemma {:induction false} FieldsSplit(s: string)
    ensures SplitsInto(s, Fields(s))
    decreases |s|
  {
    hide FieldAt, IsSpace, SkipSpace, WordLength;
    var t := SkipSpace(s);
    SkipSpaceIs(s);
    if t != "" {
      var n, k := |s| - |t|, WordLength(t);
      FirstFieldAt(s);
      Rest(s, t, n, k);
      FieldsSplit(t[k..]);
      OneMoreField(s, n, t[..k], t[k..], Fields(t[k..]));
    }
  }

  /** A text is cut at its line ends, nothing lost. */
  lemma {:induction false} LinesJoin(s: string)
    ensures Lines(s) != [] && Join(Lines(s), "\n") == s && forall l :: l in Lines(s) ==> Free('\n', l)
    decreases |s|
  {
    var k := FirstIndex('\n', s);
    FirstIndexMeaning('\n', s);
    if k < |s| {
      LinesJoin(s[k + 1..]);
      assert Lines(s)[1..] == Lines(s[k + 1..]);
      assert s == s[..k] + "\n" + s[k + 1..];
    }
  }

  lemma {:induction false} FirstIndexMeaning(sep: char, s: string)
    ensures var k := FirstIndex(sep, s);
            k <= |s| && sep !in s[..k] && (k < |s| ==> s[k] == sep)
  {
    if |s| > 0 && s[0] != sep {
      FirstIndexMeaning(sep, s[1..]);
      var k := FirstIndex(sep, s);
      assert s[..k] == [s[0]] + s[1..][..k - 1];
    }
  }

  // ---------------------------------------------------------------------------------------
  // Cleaning and trimming

  /** Cleaning keeps every safe character in its place and puts a dash for every other. */
  lemma {:induction false} SafeTextAt(s: string, k: nat)
    requires k < |s|
    ensures |SafeText(s)| == |s|
    ensures SafeText(s)[k] == if 'a' <= s[k] <= 'z' || '0' <= s[k] <= '9' || s[k] in ".-" then s[k] else '-'
  {
    var n := |s| - 1;
    if k < n {
      SafeTextAt(s[..n], k);
    } else {
      SafeTextLength(s);
      SafeTextLength(s[..n]);
    }
  }

  lemma {:induction false} SafeTextLength(s: string)
    ensures |SafeText(s)| == |s|
  {
    if |s| > 0 { SafeTextLength(s[..|s| - 1]); }
  }

  lemma {:induction false} TrimLeftIs(c: char, s: string)
    ensures TrimLeft(c, s) == "" <==> forall i :: 0 <= i < |s| ==> s[i] == c
    ensures s != "" && s[0] != c ==> TrimLeft(c, s) == s
    ensures TrimLeft(c, s) != "" ==> TrimLeft(c, s)[0] != c
  {
    if |s| > 0 && s[0] == c {
      TrimLeftIs(c, s[1..]);
      assert forall i :: 0 < i < |s| ==> s[i] == s[1..][i - 1];
    }
  }

  lemma {:induction false} TrimRightIs(c: char, s: string)
    ensures TrimRight(c, s) == "" <==> forall i :: 0 <= i < |s| ==> s[i] == c
    ensures s != "" && s[|s| - 1] != c ==> TrimRight(c, s) == s
    ensures TrimRight(c, s) <= s
  {
    if |s| > 0 && s[|s| - 1] == c { TrimRightIs(c, s[..|s| - 1]); }
  }

  /** Nothing but `c`. */
  predicate Only(c: char, s: string) { forall i :: 0 <= i < |s| ==> s[i] == c }

  lemma TrimIs(c: char, s: string)
    ensures Trim(c, s) == "" <==> Only(c, s)
    ensures s != "" && s[0] != c && s[|s| - 1] != c ==> Trim(c, s) == s
  {
    var l := TrimLeft(c, s);
    TrimLeftIs(c, s);
    TrimRightIs(c, l);
    if l != "" { assert l[0] != c; }
  }

  // ---------------------------------------------------------------------------------------
  // Slugs

  /** A URL with a host and, unless `extra` is only slashes, a path or query. */
  ghost predicate Points(env: Env, url: string, host: string, extra: string) {
    env.parse(url) == Parsed(host, extra)
  }

  /** The slug before any digest. */
  function HostSlug(host: string): string {
    var slug := Trim('-', SafeText(if host == "" then "target" else host));
    if slug == "" then "target" else slug
  }

  lemma SlugOfHost(env: Env, url: string, host: string, extra: string)
    requires Points(env, url, host, extra)
    ensures Only('/', extra) ==> SlugFor(env, url) == HostSlug(host)
    ensures !Only('/', extra) ==> SlugFor(env, url) == HostSlug(host) + "-" + env.digest(extra)
  {
    hide Trim, SafeText, Only;
    TrimIs('/', extra);
    if Only('/', extra) {
      assert HostSlug(host) + "" == HostSlug(host);
    } else {
      assert HostSlug(host) + ("-" + env.digest(extra)) == HostSlug(host) + "-" + env.digest(extra);
    }
  }

  /** A path adds a dash and its digest to the slug of the bare host, and without one the slug is
      that of the bare host. */
  lemma SlugExtends(env: Env, url: string, bare: string, host: string, extra: string, none: string)
    requires Points(env, url, host, extra) && Points(env, bare, host, none) && Only('/', none)
    ensures SlugFor(env, url) == if Only('/', extra) then SlugFor(env, bare) else SlugFor(env, bare) + "-" + env.digest(extra)
  {
    hide SlugFor, HostSlug, Only, Points;
    SlugOfHost(env, url, host, extra);
    SlugOfHost(env, bare, host, none);
  }

  lemma HexEnds(x: string, y: string, a: string, b: string)
    requires |a| == |b| && x + "-" + a == y + "-" + b
    ensures a == b
  {
    var s, t := x + "-" + a, y + "-" + b;
    assert s[|s| - |a|..] == a && t[|t| - |b|..] == b;
  }

  /** Two URLs with paths whose digests differ have different slugs, whatever their hosts. */
  lemma PathsTellApart(env: Env, u: string, v: string, h: string, k: string, x: string, y: string)
    requires Points(env, u, h, x) && Points(env, v, k, y)
    requires !Only('/', x) && !Only('/', y) && env.digest(x) != env.digest(y)
    ensures SlugFor(env, u) != SlugFor(env, v)
  {
    hide SlugFor, Only, HostSlug, Points;
    var a, b := HostSlug(h), HostSlug(k);
    SlugOfHost(env, u, h, x);
    SlugOfHost(env, v, k, y);
    DigestIsHex(env, x);
    DigestIsHex(env, y);
    if SlugFor(env, u) == SlugFor(env, v) { HexEnds(a, b, env.digest(x), env.digest(y)); }
  }

  lemma DigestIsHex(env: Env, s: string)
    ensures |env.digest(s)| == 8
  {
    assert IsHex(env.digest(s));
  }

  /** A URL with a path never has the slug of its bare host. */
  lemma PathTellsFromHost(env: Env, url: string, bare: string, host: string, extra: string, none: string)
    requires Points(env, url, host, extra) && Points(env, bare, host, none) && !Only('/', extra) && Only('/', none)
    ensures SlugFor(env, url) != SlugFor(env, bare)
  {
    hide SlugFor, Points, Only;
    SlugExtends(env, url, bare, host, extra, none);
    assert |SlugFor(env, url)| > |SlugFor(env, bare)|;
  }

  lemma {:induction false} TrimLeftOf(c: char, a: string, s: string)
    requires Only(c, a) && s != "" && s[0] != c
    ensures TrimLeft(c, a + s) == s
  {
    if |a| > 0 {
      assert (a + s)[1..] == a[1..] + s;
      TrimLeftOf(c, a[1..], s);
    } else {
      assert a + s == s;
    }
  }

  lemma {:induction false} TrimRightOf(c: char, s: string, b: string)
    requires Only(c, b) && s != "" && s[|s| - 1] != c
    ensures TrimRight(c, s + b) == s
  {
    if |b| > 0 {
      var n := |b| - 1;
      assert (s + b)[..|s + b| - 1] == s + b[..n];
      TrimRightOf(c, s, b[..n]);
    } else {
      assert s + b == s;
    }
  }

  /** The slug of a bare host is the cleaned host without the dashes around it. */
  lemma HostIsSlug(env: Env, url: string, host: string, extra: string, a: string, s: string, b: string)
    requires Points(env, url, host, extra) && Only('/', extra) && host != ""
    requires SafeText(host) == a + s + b && Only('-', a) && Only('-', b)
    requires s != "" && s[0] != '-' && s[|s| - 1] != '-'
    ensures SlugFor(env, url) == s
  {
    hide TrimLeft, TrimRight, SafeText, Only;
    TrimIs('/', extra);
    assert a + s + b == a + (s + b);
    TrimLeftOf('-', a, s + b);
    TrimRightOf('-', s, b);
  }

  /** In particular a host that is already safe and has no dashes around it is its own slug. */
  lemma SafeHostIsSlug(env: Env, url: string, host: string, extra: string)
    requires Points(env, url, host, extra) && Only('/', extra)
    requires host != "" && IsSafe(host) && host[0] != '-' && host[|host| - 1] != '-'
    ensures SlugFor(env, url) == host
  {
    hide SlugFor, SafeText;
    SafeStays(host);
    assert "" + host + "" == host;
    HostIsSlug(env, url, host, extra, "", host, "");
  }

  lemma SafeStays(s: string)
    requires IsSafe(s)
    ensures SafeText(s) == s
  {
    SafeTextLength(s);
    forall k | 0 <= k < |s| ensures SafeText(s)[k] == s[k] { SafeTextAt(s, k); }
  }

  /** A URL that does not parse or has no host, and a host of nothing but unsafe characters and
      dashes, get the slug "target", before any digest. */
  lemma NamelessIsTarget(env: Env, url: string)
    requires match env.parse(url)
             case Invalid => true
             case Parsed(host, extra) =>
               Only('/', extra) && forall i :: 0 <= i < |host| ==> SafeChar(host[i]) == '-'
    ensures SlugFor(env, url) == "target"
  {
    hide Trim, SafeText;
    match env.parse(url) {
      case Invalid =>
        PlainTarget();
      case Parsed(host, extra) =>
        PlainTarget();
        TrimIs('/', extra);
        TrimIs('-', SafeText(host));
        SafeTextLength(host);
        forall k | 0 <= k < |host| ensures SafeText(host)[k] == '-' { SafeTextAt(host, k); }
        assert Only('-', SafeText(host));
    }
  }

  lemma PlainTarget()
    ensures Trim('-', SafeText("target")) == "target"
  {
    hide Trim, SafeText;
    assert IsSafe("target");
    SafeStays("target");
    TrimIs('-', "target");
  }

  // ---------------------------------------------------------------------------------------
  // Accepted files

  /** A line that holds nothing: blank, or a comment. */
  predicate Empty(raw: string) {
    var line := TrimSpace(DropReturn(raw));
    line == "" || line[0] == '#'
  }

  /** The target a line asks for: a slug and a URL, or a URL whose slug is derived. */
  function EntryOf(env: Env, raw: string): TargetSpec {
    var fields := Fields(TrimSpace(DropReturn(raw)));
    if |fields| == 2 then TargetSpec(fields[0], fields[1])
    else if |fields| == 1 then TargetSpec(SlugFor(env, fields[0]), fields[0])
    else TargetSpec("", "")
  }

  /** A line with one or two fields and a URL that parses. */
  predicate Sensible(env: Env, raw: string) {
    var n := |Fields(TrimSpace(DropReturn(raw)))|;
    (n == 1 || n == 2) && !env.parse(EntryOf(env, raw).url).Invalid?
  }

  ghost predicate Clash(env: Env, a: string, b: string) {
    EntryOf(env, a).slug == EntryOf(env, b).slug || EntryOf(env, a).url == EntryOf(env, b).url
  }

  /** Every line that holds something is sensible, and no two of them share a slug or a URL. */
  ghost predicate Sound(env: Env, lines: seq<string>) {
    && (forall i :: 0 <= i < |lines| && !Empty(lines[i]) ==> Sensible(env, lines[i]))
    && forall i, j :: 0 <= i < j < |lines| && !Empty(lines[i]) && !Empty(lines[j]) ==> !Clash(env, lines[i], lines[j])
  }

  function EntriesOf(env: Env, lines: seq<string>): seq<TargetSpec> {
    if |lines| == 0 then []
    else
      var n := |lines| - 1;
      EntriesOf(env, lines[..n]) + if Empty(lines[n]) then [] else [EntryOf(env, lines[n])]
  }

  /** Some line asks for the target. */
  ghost predicate Asked(env: Env, lines: seq<string>, t: TargetSpec) {
    exists i :: 0 <= i < |lines| && !Empty(lines[i]) && t == EntryOf(env, lines[i])
  }

  lemma AskedMore(env: Env, lines: seq<string>, t: TargetSpec)
    requires |lines| > 0
    ensures var n := |lines| - 1;
            Asked(env, lines, t) <==> Asked(env, lines[..n], t) || (!Empty(lines[n]) && t == EntryOf(env, lines[n]))
  {
    hide Empty, EntryOf;
    var n := |lines| - 1;
    var before := lines[..n];
    assert forall i :: 0 <= i < n ==> before[i] == lines[i];
  }

  lemma {:induction false} EntryThere(env: Env, lines: seq<string>, t: TargetSpec)
    ensures t in EntriesOf(env, lines) <==> Asked(env, lines, t)
  {
    hide Empty, EntryOf, Asked;
    if |lines| > 0 {
      EntryThere(env, lines[..|lines| - 1], t);
      AskedMore(env, lines, t);
    } else {
      NothingAsked(env, t);
    }
  }

  lemma NothingAsked(env: Env, t: TargetSpec)
    ensures !Asked(env, [], t)
  {
  }

  lemma ReadOne(env: Env, out: seq<TargetSpec>, raw: string, number: nat)
    ensures Empty(raw) ==> ReadLine(env, out, raw, number) == Targets(out)
    ensures !Empty(raw) ==>
              var t := EntryOf(env, raw);
              if Sensible(env, raw) && t.slug !in Slugs(out) && t.url !in Urls(out)
              then ReadLine(env, out, raw, number) == Targets(out + [t])
              else ReadLine(env, out, raw, number).LineError? && ReadLine(env, out, raw, number).line == number
  {
    hide TrimSpace, Fields, SlugFor, DropReturn, Slugs, Urls;
  }

  lemma SoundLess(env: Env, lines: seq<string>, n: nat)
    requires Sound(env, lines) && n <= |lines|
    ensures Sound(env, lines[..n])
  {
    hide Empty, Sensible, Clash;
    assert forall i :: 0 <= i < n ==> lines[..n][i] == lines[i];
  }

  /** Some line before asks for the same slug or URL. */
  ghost predicate Taken(env: Env, lines: seq<string>, raw: string) {
    exists i :: 0 <= i < |lines| && !Empty(lines[i]) && Clash(env, lines[i], raw)
  }

  lemma TakenIs(env: Env, lines: seq<string>, raw: string)
    ensures var out, t := EntriesOf(env, lines), EntryOf(env, raw);
            Taken(env, lines, raw) <==> t.slug in Slugs(out) || t.url in Urls(out)
  {
    hide Empty, EntryOf, EntriesOf;
    var out, t := EntriesOf(env, lines), EntryOf(env, raw);
    if Taken(env, lines, raw) {
      var i :| 0 <= i < |lines| && !Empty(lines[i]) && Clash(env, lines[i], raw);
      EntryThere(env, lines, EntryOf(env, lines[i]));
    }
    if t.slug in Slugs(out) || t.url in Urls(out) {
      var u :| u in out && (u.slug == t.slug || u.url == t.url);
      EntryThere(env, lines, u);
    }
  }

  lemma SoundMore(env: Env, lines: seq<string>)
    requires |lines| > 0 && Sound(env, lines[..|lines| - 1])
    ensures var before, raw := lines[..|lines| - 1], lines[|lines| - 1];
            Sound(env, lines) <==> Empty(raw) || (Sensible(env, raw) && !Taken(env, before, raw))
  {
    hide Empty, Sensible, Clash;
    var n := |lines| - 1;
    var before, raw := lines[..n], lines[n];
    assert forall i :: 0 <= i < n ==> before[i] == lines[i];
    if Taken(env, before, raw) {
      var i :| 0 <= i < |before| && !Empty(before[i]) && Clash(env, before[i], raw);
      assert Clash(env, lines[i], lines[n]);
    }
  }

  /** The targets file is accepted exactly when it is sound, and then holds the entries of its lines in
      order; otherwise the error names the first line that is not. */
  lemma {:induction false} ReadExactly(env: Env, lines: seq<string>)
    ensures Sound(env, lines) ==> ReadLines(env, lines) == Targets(EntriesOf(env, lines))
    ensures !Sound(env, lines) ==>
              var r := ReadLines(env, lines);
              r.LineError? && 1 <= r.line <= |lines| && Sound(env, lines[..r.line - 1]) && !Sound(env, lines[..r.line])
  {
    hide Empty, Sensible, EntryOf, ReadLine, Sound, Taken, Slugs, Urls;
    if |lines| == 0 {
      NothingIsSound(env);
    } else {
      var n := |lines| - 1;
      ReadExactly(env, lines[..n]);
      if Sound(env, lines[..n]) {
        SoundMore(env, lines);
        TakenIs(env, lines[..n], lines[n]);
        ReadOne(env, EntriesOf(env, lines[..n]), lines[n], n + 1);
        assert lines[..n + 1] == lines;
      } else {
        var k := ReadLines(env, lines[..n]).line;
        assert lines[..n][..k - 1] == lines[..k - 1] && lines[..n][..k] == lines[..k];
        if Sound(env, lines) { SoundLess(env, lines, n); }
      }
    }
  }

  lemma NothingIsSound(env: Env)
    ensures Sound(env, [])
  {
  }

  // ---------------------------------------------------------------------------------------
  // A list of bare URLs

  function Bare(urls: seq<string>): string {
    if |urls| == 0 then "" else urls[0] + "\n" + Bare(urls[1..])
  }

  /** The URLs of one host, each with a path of its own. */
  ghost predicate OneHost(env: Env, host: string, urls: seq<string>, extras: seq<string>) {
    && |urls| == |extras|
    && forall i :: 0 <= i < |urls| ==>
         Word(urls[i]) && urls[i][0] != '#' && Points(env, urls[i], host, extras[i]) && !Only('/', extras[i])
  }

  function Derived(env: Env, urls: seq<string>): seq<TargetSpec> {
    seq(|urls|, i requires 0 <= i < |urls| => TargetSpec(SlugFor(env, urls[i]), urls[i]))
  }

  lemma {:induction false} BareLines(urls: seq<string>)
    requires forall i :: 0 <= i < |urls| ==> Word(urls[i])
    ensures Lines(Bare(urls)) == urls + [""]
  {
    hide Lines;
    if |urls| == 0 {
      NoLines();
    } else {
      NoBreaks(urls[0]);
      LinesStep(urls[0], Bare(urls[1..]));
      BareLines(urls[1..]);
    }
  }

  lemma NoBreaks(s: string)
    requires Word(s)
    ensures Free('\n', s)
  {
  }

  lemma WordAlone(env: Env, s: string)
    requires Word(s) && s[0] != '#'
    ensures DropReturn(s) == s && TrimSpace(s) == s && Fields(s) == [s]
    ensures !Empty(s) && EntryOf(env, s) == TargetSpec(SlugFor(env, s), s)
  {
    hide SlugFor;
    assert SkipSpace(s) == s && DropSpace(s) == s;
    WordLengthIs(s, "");
    assert s + "" == s && s[..|s|] == s && s[|s|..] == "";
    assert Fields("") == [];
  }

  lemma BlankIsEmpty()
    ensures Empty("")
  {
  }

  lemma BareAreSound(env: Env, host: string, urls: seq<string>, extras: seq<string>)
    requires OneHost(env, host, urls, extras)
    requires Distinct(urls)
    requires forall i, j :: 0 <= i < j < |urls| ==> env.digest(extras[i]) != env.digest(extras[j])
    ensures Sound(env, urls + [""])
  {
    hide SlugFor, Empty, EntryOf, Only, Word, Points;
    var lines := urls + [""];
    BlankIsEmpty();
    forall i | 0 <= i < |lines| && !Empty(lines[i]) ensures Sensible(env, lines[i]) {
      OneSensible(env, host, lines[i], extras[i]);
    }
    forall i, j | 0 <= i < j < |lines| && !Empty(lines[i]) && !Empty(lines[j]) ensures !Clash(env, lines[i], lines[j]) {
      WordAlone(env, lines[i]);
      WordAlone(env, lines[j]);
      PathsTellApart(env, lines[i], lines[j], host, host, extras[i], extras[j]);
    }
  }

  lemma OneSensible(env: Env, host: string, url: string, extra: string)
    requires Word(url) && url[0] != '#' && Points(env, url, host, extra)
    ensures Sensible(env, url)
  {
    hide SlugFor;
    WordAlone(env, url);
  }

  lemma DerivedMore(env: Env, urls: seq<string>)
    ensures urls == [] ==> Derived(env, urls) == []
    ensures urls != [] ==>
              var n := |urls| - 1;
              Derived(env, urls) == Derived(env, urls[..n]) + [TargetSpec(SlugFor(env, urls[n]), urls[n])]
  {
    hide SlugFor;
  }

  lemma {:induction false} BareEntries(env: Env, urls: seq<string>)
    requires forall i :: 0 <= i < |urls| ==> Word(urls[i]) && urls[i][0] != '#'
    ensures EntriesOf(env, urls) == Derived(env, urls)
  {
    hide SlugFor, Empty, EntryOf, Word, Derived;
    if |urls| > 0 {
      var n := |urls| - 1;
      var before := urls[..n];
      BareEntries(env, before);
      WordAlone(env, urls[n]);
    }
    DerivedMore(env, urls);
  }

  lemma BareParsed(env: Env, urls: seq<string>)
    requires urls != [] && forall i :: 0 <= i < |urls| ==> Word(urls[i]) && urls[i][0] != '#'
    requires Sound(env, urls + [""])
    ensures Parse(env, Bare(urls)) == Targets(Derived(env, urls))
  {
    hide Empty, EntryOf, EntriesOf, Word, Sound, Lines, ReadLines, Bare, Derived;
    BareLines(urls);
    ReadExactly(env, urls + [""]);
    BareEntries(env, urls);
    BlankAddsNothing(env, urls);
    assert |Derived(env, urls)| > 0 by { DerivedSize(env, urls); }
  }

  lemma BlankAddsNothing(env: Env, lines: seq<string>)
    ensures EntriesOf(env, lines + [""]) == EntriesOf(env, lines)
  {
    hide Empty, EntryOf;
    BlankIsEmpty();
    assert (lines + [""])[..|lines|] == lines;
  }

  lemma DerivedSize(env: Env, urls: seq<string>)
    ensures |Derived(env, urls)| == |urls|
  {
  }

  /** A file of URLs of one host, one a line, is accepted when the URLs differ and their paths have
      different digests. */
  lemma OneHostAccepted(env: Env, host: string, urls: seq<string>, extras: seq<string>)
    requires OneHost(env, host, urls, extras) && urls != [] && Distinct(urls)
    requires forall i, j :: 0 <= i < j < |urls| ==> env.digest(extras[i]) != env.digest(extras[j])
    ensures Parse(env, Bare(urls)) == Targets(Derived(env, urls))
  {
    hide Parse, Word, Points, Sound, Bare, Derived, Only;
    BareAreSound(env, host, urls, extras);
    BareParsed(env, urls);
  }
}
