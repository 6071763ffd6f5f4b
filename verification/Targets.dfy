/** The targets file: parsing and printing (cmd/fairy/report.go). */
module Targets {
  import opened Text
  import opened Sorting
  import opened Listing

  datatype TargetSpec = TargetSpec(slug: string, url: string)

  /** What URL parsing yields: the lower-cased host and the path with its query. */
  datatype Parsed = Parsed(host: string, extra: string) | Invalid

  predicate IsHex(s: string) {
    |s| == 8 && forall i :: 0 <= i < |s| ==> '0' <= s[i] <= '9' || 'a' <= s[i] <= 'f'
  }

  /** The first eight hex digits of a digest. */
  type Digest = f: string -> string | forall s: string :: IsHex(f(s)) witness (s: string) => "00000000"

  /** URL parsing and the digest are parameters. */
  datatype Env = Env(parse: string -> Parsed, digest: Digest)

  datatype Problem = WrongFieldCount(n: nat) | BadTarget | DuplicateSlug(slug: string) | DuplicateTarget(url: string)

  datatype ParseResult = Targets(specs: seq<TargetSpec>) | LineError(line: nat, problem: Problem) | NoTargets

  // ---------------------------------------------------------------------------------------
  // Lines and fields

  predicate IsSpace(c: char) {
    c in "\t\n \r" || c == '\U{0B}' || c == '\U{0C}' || c == '\U{85}' || c == '\U{A0}' || c == '\U{1680}'
    || '\U{2000}' <= c <= '\U{200A}' || c == '\U{2028}' || c == '\U{2029}' || c == '\U{202F}'
    || c == '\U{205F}' || c == '\U{3000}'
  }

  function SkipSpace(s: string): (r: string)
    ensures |r| <= |s| && (r != "" ==> !IsSpace(r[0]))
  {
    if |s| > 0 && IsSpace(s[0]) then SkipSpace(s[1..]) else s
  }

  function DropSpace(s: string): (r: string)
    ensures r <= s && (r != "" ==> !IsSpace(r[|r| - 1]))
  {
    if |s| > 0 && IsSpace(s[|s| - 1]) then DropSpace(s[..|s| - 1]) else s
  }

  function TrimSpace(s: string): string { DropSpace(SkipSpace(s)) }

  function WordLength(s: string): (n: nat)
    ensures n <= |s| && (forall i :: 0 <= i < n ==> !IsSpace(s[i]))
    ensures |s| > 0 && !IsSpace(s[0]) ==> n > 0
  {
    if |s| == 0 || IsSpace(s[0]) then 0 else 1 + WordLength(s[1..])
  }

  /** strings.Fields */
  function Fields(s: string): seq<string>
    decreases |s|
  {
    var t := SkipSpace(s);
    if t == "" then [] else [t[..WordLength(t)]] + Fields(t[WordLength(t)..])
  }

  predicate Word(s: string) { |s| > 0 && forall i :: 0 <= i < |s| ==> !IsSpace(s[i]) }

  lemma {:induction false} FieldsAreWords(s: string)
    ensures forall f :: f in Fields(s) ==> Word(f)
    decreases |s|
  {
    var t := SkipSpace(s);
    if t != "" { FieldsAreWords(t[WordLength(t)..]); }
  }

  lemma {:induction false} WordLengthIs(a: string, rest: string)
    requires Word(a) && (rest == "" || IsSpace(rest[0]))
    ensures WordLength(a + rest) == |a|
  {
    var s := a + rest;
    if |a| == 1 {
      assert s[1..] == rest;
    } else {
      assert s[1..] == a[1..] + rest;
      WordLengthIs(a[1..], rest);
    }
  }

  lemma FieldsOfTwo(a: string, b: string)
    requires Word(a) && Word(b)
    ensures Fields(a + " " + b) == [a, b]
    ensures TrimSpace(a + " " + b) == a + " " + b
  {
    var s := a + " " + b;
    assert s == a + (" " + b);
    WordLengthIs(a, " " + b);
    assert s[..|a|] == a && s[|a|..] == " " + b;
    assert SkipSpace(s) == s && DropSpace(s) == s;
    assert (" " + b)[1..] == b && SkipSpace(" " + b) == SkipSpace(b) == b;
    WordLengthIs(b, "");
    assert b + "" == b && b[|b|..] == "";
    assert Fields(" " + b) == [b] + Fields("");
  }

  /** strings.Split on line ends. */
  function Lines(s: string): seq<string> {
    var k := FirstIndex('\n', s);
    if k < |s| then [s[..k]] + Lines(s[k + 1..]) else [s]
  }

  lemma LinesStep(line: string, rest: string)
    requires Free('\n', line)
    ensures Lines(line + "\n" + rest) == [line] + Lines(rest)
  {
    var s := line + "\n" + rest;
    FirstIndexIs(line, rest, '\n');
    assert s == line + ['\n'] + rest;
    assert s[..|line|] == line && s[|line| + 1..] == rest;
  }

  // ---------------------------------------------------------------------------------------
  // Slugs

  function SafeChar(c: char): char {
    if 'a' <= c <= 'z' || '0' <= c <= '9' || c == '.' || c == '-' then c else '-'
  }

  function SafeText(s: string): string {
    if |s| == 0 then "" else SafeText(s[..|s| - 1]) + [SafeChar(s[|s| - 1])]
  }

  method WriteSafe(s: string) returns (out: string)
    ensures out == SafeText(s)
  {
    out := "";
    for i := 0 to |s|
      invariant out == SafeText(s[..i])
    {
      assert s[..i + 1][..i] == s[..i];
      out := out + [SafeChar(s[i])];
    }
    assert s[..|s|] == s;
  }

  function TrimLeft(c: char, s: string): string { if |s| > 0 && s[0] == c then TrimLeft(c, s[1..]) else s }

  function TrimRight(c: char, s: string): string {
    if |s| > 0 && s[|s| - 1] == c then TrimRight(c, s[..|s| - 1]) else s
  }

  function Trim(c: char, s: string): string { TrimRight(c, TrimLeft(c, s)) }

  /** A deterministic slug: the host, and a digest of the path when there is one. */
  function SlugFor(env: Env, url: string): string {
    var p := env.parse(url);
    var host := if p.Invalid? || p.host == "" then "target" else p.host;
    var slug := Trim('-', SafeText(host));
    var suffix := if p.Parsed? && Trim('/', p.extra) != "" then "-" + env.digest(p.extra) else "";
    (if slug == "" then "target" else slug) + suffix
  }

  predicate IsSafe(s: string) {
    forall i :: 0 <= i < |s| ==> SafeChar(s[i]) == s[i]
  }

  lemma {:induction false} SafeTextIsSafe(s: string)
    ensures IsSafe(SafeText(s))
  {
    if |s| > 0 { SafeTextIsSafe(s[..|s| - 1]); }
  }

  lemma {:induction false} TrimLeftSafe(c: char, s: string)
    requires IsSafe(s)
    ensures IsSafe(TrimLeft(c, s))
  {
    if |s| > 0 && s[0] == c { TrimLeftSafe(c, s[1..]); }
  }

  lemma {:induction false} TrimRightSafe(c: char, s: string)
    requires IsSafe(s)
    ensures IsSafe(TrimRight(c, s))
  {
    if |s| > 0 && s[|s| - 1] == c { TrimRightSafe(c, s[..|s| - 1]); }
  }

  /** A derived slug is never empty and only has lower-case letters, digits, dots and dashes, for
      valid and invalid URLs alike. */
  lemma SlugIsSafe(env: Env, url: string)
    ensures IsSafe(SlugFor(env, url)) && SlugFor(env, url) != ""
    ensures Word(SlugFor(env, url)) && Free('#', SlugFor(env, url)) && Free('/', SlugFor(env, url))
  {
    hide SafeText, Trim;
    var p := env.parse(url);
    var host := if p.Invalid? || p.host == "" then "target" else p.host;
    SafeTextIsSafe(host);
    TrimIsSafe('-', SafeText(host));
    var s := SlugFor(env, url);
    assert IsSafe(s) by { if p.Parsed? { assert IsHex(env.digest(p.extra)); } }
    assert forall i :: 0 <= i < |s| ==> !IsSpace(s[i]) && s[i] != '#' && s[i] != '/';
  }

  lemma TrimIsSafe(c: char, s: string)
    requires IsSafe(s)
    ensures IsSafe(Trim(c, s))
  {
    TrimLeftSafe(c, s);
    TrimRightSafe(c, TrimLeft(c, s));
  }

  // ---------------------------------------------------------------------------------------
  // Parsing

  function DropReturn(s: string): string {
    if |s| > 0 && s[|s| - 1] == '\r' then s[..|s| - 1] else s
  }

  function Slugs(specs: seq<TargetSpec>): set<string> { set t | t in specs :: t.slug }
  function Urls(specs: seq<TargetSpec>): set<string> { set t | t in specs :: t.url }

  /** What one more line does to the targets read so far. */
  function ReadLine(env: Env, out: seq<TargetSpec>, raw: string, number: nat): ParseResult {
    var line := TrimSpace(DropReturn(raw));
    if line == "" || line[0] == '#' then Targets(out)
    else
      var fields := Fields(line);
      if |fields| == 1 then Add(env, out, SlugFor(env, fields[0]), fields[0], number)
      else if |fields| == 2 then Add(env, out, fields[0], fields[1], number)
      else LineError(number, WrongFieldCount(|fields|))
  }

  function Add(env: Env, out: seq<TargetSpec>, slug: string, url: string, number: nat): ParseResult {
    if env.parse(url).Invalid? then LineError(number, BadTarget)
    else if slug in Slugs(out) then LineError(number, DuplicateSlug(slug))
    else if url in Urls(out) then LineError(number, DuplicateTarget(url))
    else Targets(out + [TargetSpec(slug, url)])
  }

  function ReadLines(env: Env, lines: seq<string>): ParseResult {
    if |lines| == 0 then Targets([])
    else
      var n := |lines| - 1;
      match ReadLines(env, lines[..n])
      case Targets(out) => ReadLine(env, out, lines[n], n + 1)
      case failed => failed
  }

  function Parse(env: Env, text: string): ParseResult {
    var r := ReadLines(env, Lines(text));
    if r == Targets([]) then NoTargets else r
  }

  method ParseTargets(env: Env, text: string) returns (r: ParseResult)
    ensures r == Parse(env, text)
  {
    hide Lines, Fields, TrimSpace, SlugFor, ReadLines, DropReturn, Slugs, Urls, Add;
    ReadNothing(env);
    NoSlugs();
    var out: seq<TargetSpec> := [];
    var seen: set<string>, seenURL: set<string> := {}, {};
    var lines := Lines(text);
    assert lines[..0] == [];
    for i := 0 to |lines|
      invariant ReadLines(env, lines[..i]) == Targets(out)
      invariant seen == Slugs(out) && seenURL == Urls(out)
    {
      ReadStep(env, lines, i, out);
      var line := TrimSpace(DropReturn(lines[i]));
      if line == "" || line[0] == '#' { continue; }
      var fields := Fields(line);
      var slug, target;
      if |fields| == 1 {
        target := fields[0];
        slug := SlugFor(env, target);
      } else if |fields| == 2 {
        slug, target := fields[0], fields[1];
      } else {
        FailureStays(env, lines, i + 1);
        return LineError(i + 1, WrongFieldCount(|fields|));
      }
      var problem := Check(env, out, seen, seenURL, slug, target, i + 1);
      if problem.LineError? {
        FailureStays(env, lines, i + 1);
        return problem;
      }
      MoreSlugs(out, TargetSpec(slug, target));
      AddedOne(env, out, slug, target, i + 1);
      seen, seenURL := seen + {slug}, seenURL + {target};
      out := out + [TargetSpec(slug, target)];
    }
    assert lines[..|lines|] == lines;
    r := if |out| == 0 then NoTargets else Targets(out);
  }

  lemma ReadNothing(env: Env)
    ensures ReadLines(env, []) == Targets([])
  {
  }

  lemma ReadStep(env: Env, lines: seq<string>, i: nat, out: seq<TargetSpec>)
    requires i < |lines| && ReadLines(env, lines[..i]) == Targets(out)
    ensures ReadLines(env, lines[..i + 1]) == ReadLine(env, out, lines[i], i + 1)
  {
    hide ReadLine;
    assert lines[..i + 1][..i] == lines[..i];
  }

  lemma NoSlugs()
    ensures Slugs([]) == {} && Urls([]) == {}
  {
  }

  lemma MoreSlugs(out: seq<TargetSpec>, t: TargetSpec)
    ensures Slugs(out + [t]) == Slugs(out) + {t.slug} && Urls(out + [t]) == Urls(out) + {t.url}
  {
  }

  lemma AddedOne(env: Env, out: seq<TargetSpec>, slug: string, url: string, number: nat)
    ensures !Add(env, out, slug, url, number).LineError? ==>
              Add(env, out, slug, url, number) == Targets(out + [TargetSpec(slug, url)])
  {
  }

  /** The checks on one entry, in the order the errors are reported. */
  method Check(env: Env, out: seq<TargetSpec>, seen: set<string>, seenURL: set<string>,
               slug: string, target: string, number: nat) returns (r: ParseResult)
    requires seen == Slugs(out) && seenURL == Urls(out)
    ensures r == Add(env, out, slug, target, number)
  {
    if env.parse(target).Invalid? { return LineError(number, BadTarget); }
    if slug in seen { return LineError(number, DuplicateSlug(slug)); }
    if target in seenURL { return LineError(number, DuplicateTarget(target)); }
    return Targets(out + [TargetSpec(slug, target)]);
  }

  lemma {:induction false} FailureStays(env: Env, lines: seq<string>, n: nat)
    requires n <= |lines| && !ReadLines(env, lines[..n]).Targets?
    ensures ReadLines(env, lines) == ReadLines(env, lines[..n])
    decreases |lines| - n
  {
    hide ReadLine;
    if n < |lines| {
      assert lines[..n + 1][..n] == lines[..n];
      FailureStays(env, lines, n + 1);
    } else {
      assert lines[..n] == lines;
    }
  }

  // ---------------------------------------------------------------------------------------
  // What a parsed list looks like, and the round trip

  ghost predicate Entry(env: Env, t: TargetSpec) {
    Word(t.slug) && t.slug[0] != '#' && Word(t.url) && !env.parse(t.url).Invalid?
  }

  ghost predicate Clean(env: Env, specs: seq<TargetSpec>) {
    && (forall t :: t in specs ==> Entry(env, t))
    && forall i, j :: 0 <= i < j < |specs| ==> specs[i].slug != specs[j].slug && specs[i].url != specs[j].url
  }

  lemma ReadLineIsClean(env: Env, out: seq<TargetSpec>, raw: string, number: nat)
    requires Clean(env, out)
    ensures var r := ReadLine(env, out, raw, number); !r.NoTargets? && (r.Targets? ==> Clean(env, r.specs))
  {
    hide SlugFor, DropReturn;
    var line := TrimSpace(DropReturn(raw));
    if line != "" && line[0] != '#' {
      var fields := Fields(line);
      FieldsAreWords(line);
      FirstFieldStarts(DropReturn(raw));
      assert |fields| > 0 ==> fields[0] in fields;
      assert |fields| > 1 ==> fields[1] in fields;
      if |fields| == 1 {
        SlugIsSafe(env, fields[0]);
        AddIsClean(env, out, SlugFor(env, fields[0]), fields[0], number);
      } else if |fields| == 2 {
        AddIsClean(env, out, fields[0], fields[1], number);
      }
    }
  }

  lemma AddIsClean(env: Env, out: seq<TargetSpec>, slug: string, url: string, number: nat)
    requires Clean(env, out) && Word(slug) && slug[0] != '#' && Word(url)
    ensures var r := Add(env, out, slug, url, number); !r.NoTargets? && (r.Targets? ==> Clean(env, r.specs))
  {
    hide Word, Entry;
    if Add(env, out, slug, url, number).Targets? {
      var t := TargetSpec(slug, url);
      assert Entry(env, t) by { IsEntry(env, t); }
      forall i | 0 <= i < |out| ensures out[i].slug != slug && out[i].url != url {
        assert out[i] in out && out[i].slug in Slugs(out) && out[i].url in Urls(out);
      }
    }
  }

  lemma IsEntry(env: Env, t: TargetSpec)
    requires Word(t.slug) && t.slug[0] != '#' && Word(t.url) && !env.parse(t.url).Invalid?
    ensures Entry(env, t)
  {
  }

  lemma FirstFieldStarts(s: string)
    ensures var line := TrimSpace(s); line != "" ==> |Fields(line)| > 0 && Fields(line)[0] != "" && Fields(line)[0][0] == line[0]
  {
    var line := TrimSpace(s);
    if line != "" {
      assert line[0] == SkipSpace(s)[0];
      assert SkipSpace(line) == line;
    }
  }

  lemma {:induction false} ReadLinesIsClean(env: Env, lines: seq<string>)
    ensures var r := ReadLines(env, lines); !r.NoTargets? && (r.Targets? ==> Clean(env, r.specs))
  {
    hide ReadLine, Clean;
    if |lines| == 0 {
      assert Clean(env, []) by { EmptyIsClean(env); }
    } else {
      var n := |lines| - 1;
      ReadLinesIsClean(env, lines[..n]);
      var r := ReadLines(env, lines[..n]);
      if r.Targets? { ReadLineIsClean(env, r.specs, lines[n], n + 1); }
    }
  }

  lemma EmptyIsClean(env: Env)
    ensures Clean(env, [])
  {
  }

  function SlugOf(t: TargetSpec): string { t.slug }

  function SortBySlug(specs: seq<TargetSpec>): seq<TargetSpec> { Sort(ByName(SlugOf), specs) }

  function Render(specs: seq<TargetSpec>): string {
    if |specs| == 0 then "" else LineOf(specs[0]) + "\n" + Render(specs[1..])
  }

  function LineOf(t: TargetSpec): string { t.slug + " " + t.url }

  function LinesOf(specs: seq<TargetSpec>): seq<string> {
    seq(|specs|, i requires 0 <= i < |specs| => LineOf(specs[i]))
  }

  function Format(specs: seq<TargetSpec>): string { Render(SortBySlug(specs)) }

  lemma {:induction false} RenderedLines(env: Env, specs: seq<TargetSpec>)
    requires forall t :: t in specs ==> Entry(env, t)
    ensures Lines(Render(specs)) == LinesOf(specs) + [""]
  {
    hide Lines, Entry, LineOf;
    if |specs| == 0 {
      NoLines();
    } else {
      var t := specs[0];
      assert t in specs && forall u :: u in specs[1..] ==> u in specs;
      OneLine(env, t);
      LinesStep(LineOf(t), Render(specs[1..]));
      RenderedLines(env, specs[1..]);
      assert LinesOf(specs) == [LineOf(t)] + LinesOf(specs[1..]);
    }
  }

  lemma OneLine(env: Env, t: TargetSpec)
    requires Entry(env, t)
    ensures Free('\n', LineOf(t))
  {
  }

  lemma NoLines()
    ensures Lines("") == [""]
  {
  }

  lemma ReadEntry(env: Env, out: seq<TargetSpec>, t: TargetSpec, number: nat)
    requires Entry(env, t) && t.slug !in Slugs(out) && t.url !in Urls(out)
    ensures ReadLine(env, out, LineOf(t), number) == Targets(out + [t])
  {
    hide TrimSpace, Fields, SlugFor;
    var s := t.slug + " " + t.url;
    FieldsOfTwo(t.slug, t.url);
    assert s[|s| - 1] == t.url[|t.url| - 1];
    assert DropReturn(s) == s;
    assert s[0] == t.slug[0];
  }

  lemma {:induction false} ReadRendered(env: Env, specs: seq<TargetSpec>, n: nat)
    requires Clean(env, specs) && n <= |specs|
    ensures ReadLines(env, LinesOf(specs[..n])) == Targets(specs[..n])
  {
    hide ReadLine, Entry, LineOf;
    if n > 0 {
      var m := n - 1;
      ReadRendered(env, specs, m);
      assert LinesOf(specs[..n])[..m] == LinesOf(specs[..m]);
      assert specs[m] in specs;
      ReadEntry(env, specs[..m], specs[m], n);
      assert specs[..n] == specs[..m] + [specs[m]];
    }
  }

  lemma ReadBlank(env: Env, out: seq<TargetSpec>, number: nat)
    ensures ReadLine(env, out, "", number) == Targets(out)
  {
  }

  lemma RenderRoundTrip(env: Env, specs: seq<TargetSpec>)
    requires Clean(env, specs) && specs != []
    ensures Parse(env, Render(specs)) == Targets(specs)
  {
    hide Lines, Render, ReadLine, LineOf;
    var n := |specs|;
    var lines := LinesOf(specs);
    RenderedLines(env, specs);
    ReadRendered(env, specs, n);
    assert (lines + [""])[..n] == lines && specs[..n] == specs;
    ReadBlank(env, specs, n + 1);
  }

  lemma SortIsClean(env: Env, specs: seq<TargetSpec>)
    requires Clean(env, specs)
    ensures Clean(env, SortBySlug(specs)) && multiset(SortBySlug(specs)) == multiset(specs)
    ensures Sorted(ByName(SlugOf), SortBySlug(specs))
  {
    hide Entry, Less;
    var out := SortBySlug(specs);
    NamesOrder(SlugOf);
    SortCorrect(ByName(SlugOf), specs);
    assert Distinct(specs);
    PermutedDistinct(specs, out);
    forall t | t in out ensures t in specs { assert t in multiset(out); }
    forall i, j | 0 <= i < j < |out| ensures out[i].slug != out[j].slug && out[i].url != out[j].url {
      assert out[i] in specs && out[j] in specs && out[i] != out[j];
    }
  }

  /** Whenever a text is accepted, printing its targets and parsing again gives the same
      targets sorted by slug; slugs and URLs are pairwise distinct. */
  lemma TargetsRoundTrip(env: Env, text: string)
    requires Parse(env, text).Targets?
    ensures var specs := Parse(env, text).specs;
            && specs != []
            && Clean(env, specs)
            && Parse(env, Format(specs)) == Targets(SortBySlug(specs))
            && Sorted(ByName(SlugOf), SortBySlug(specs))
            && multiset(SortBySlug(specs)) == multiset(specs)
  {
    hide Lines, Render, SortBySlug, Clean;
    ReadLinesIsClean(env, Lines(text));
    var specs := Parse(env, text).specs;
    SortIsClean(env, specs);
    assert |multiset(SortBySlug(specs))| == |SortBySlug(specs)|;
    assert |multiset(specs)| == |specs|;
    RenderRoundTrip(env, SortBySlug(specs));
  }

  /** Printing does not depend on the order of the targets, nor on the sorting algorithm. */
  lemma FormatIgnoresOrder(env: Env, specs: seq<TargetSpec>, others: seq<TargetSpec>)
    requires Clean(env, specs) && multiset(specs) == multiset(others)
    ensures Format(specs) == Format(others)
  {
    hide Less, Entry;
    NamesOrder(SlugOf);
    forall a, b | a in specs && b in specs && !ByName(SlugOf)(a, b) && !ByName(SlugOf)(b, a) ensures a == b {
      LessTotal(SlugOf(a), SlugOf(b));
      var i :| 0 <= i < |specs| && specs[i] == a;
      var j :| 0 <= j < |specs| && specs[j] == b;
    }
    SortOfPermutation(ByName(SlugOf), specs, others);
  }
}
