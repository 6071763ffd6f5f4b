/** The jobs of a batch and the names of the files they write (cmd/fairy/batch.go), and reading
    a slug and a run back from a name (cmd/fairy/compare.go). */
module ReportNames {
  import opened Text
  import opened Sorting
  import opened Paths
  import opened Listing
  import Targets
  import opened Model

  const MAX_INT := 0x7FFF_FFFF_FFFF_FFFF
  const JSON := ".json"
  const STATE := ".state.json"

  datatype Job = Job(slug: string, run: nat)

  // ---------------------------------------------------------------------------------------
  // The queue

  /** Every target's runs, in order. */
  function Queue(slugs: seq<string>, runs: nat): seq<Job> {
    if |slugs| == 0 then [] else Queue(slugs[..|slugs| - 1], runs) + JobsOf(slugs[|slugs| - 1], runs)
  }

  function JobsOf(slug: string, runs: nat): seq<Job> {
    seq(runs, r requires 0 <= r < runs => Job(slug, r + 1))
  }

  method BuildQueue(slugs: seq<string>, runs: nat) returns (queue: seq<Job>)
    ensures queue == Queue(slugs, runs)
  {
    queue := [];
    for i := 0 to |slugs|
      invariant queue == Queue(slugs[..i], runs)
    {
      ghost var before := queue;
      for r := 1 to runs + 1
        invariant queue == before + JobsOf(slugs[i], r - 1)
      {
        queue := queue + [Job(slugs[i], r)];
        assert JobsOf(slugs[i], r) == JobsOf(slugs[i], r - 1) + [Job(slugs[i], r)];
      }
      assert slugs[..i + 1][..i] == slugs[..i];
    }
    assert slugs[..|slugs|] == slugs;
  }

  lemma {:induction false} QueueCount(slugs: seq<string>, runs: nat)
    ensures |Queue(slugs, runs)| == |slugs| * runs
  {
    if |slugs| > 0 {
      QueueCount(slugs[..|slugs| - 1], runs);
      assert |slugs| * runs == (|slugs| - 1) * runs + runs;
    }
  }

  lemma JobsOfMember(slug: string, runs: nat, j: Job)
    ensures j in JobsOf(slug, runs) <==> j.slug == slug && 1 <= j.run <= runs
  {
    if j.slug == slug && 1 <= j.run <= runs { assert JobsOf(slug, runs)[j.run - 1] == j; }
  }

  lemma {:induction false} QueueMember(slugs: seq<string>, runs: nat, j: Job)
    ensures j in Queue(slugs, runs) <==> j.slug in slugs && 1 <= j.run <= runs
  {
    hide JobsOf;
    if |slugs| > 0 {
      var n := |slugs| - 1;
      QueueMember(slugs[..n], runs, j);
      JobsOfMember(slugs[n], runs, j);
      assert slugs == slugs[..n] + [slugs[n]];
    }
  }

  lemma DistinctPlus<T>(x: seq<T>, y: seq<T>)
    requires Distinct(x) && Distinct(y) && forall e :: e in x ==> e !in y
    ensures Distinct(x + y)
  {
    forall i, j | 0 <= i < j < |x + y| ensures (x + y)[i] != (x + y)[j] {
      if i < |x| <= j { assert x[i] in x && y[j - |x|] in y; }
    }
  }

  lemma {:induction false} QueueDistinct(slugs: seq<string>, runs: nat)
    requires Distinct(slugs)
    ensures Distinct(Queue(slugs, runs))
  {
    hide JobsOf;
    if |slugs| > 0 {
      var n := |slugs| - 1;
      QueueDistinct(slugs[..n], runs);
      var before, more := Queue(slugs[..n], runs), JobsOf(slugs[n], runs);
      assert slugs[n] !in slugs[..n];
      forall j | j in before ensures j !in more {
        QueueMember(slugs[..n], runs, j);
        JobsOfMember(slugs[n], runs, j);
      }
      assert Distinct(more) by { RunsDiffer(slugs[n], runs); }
      DistinctPlus(before, more);
    }
  }

  lemma RunsDiffer(slug: string, runs: nat)
    ensures Distinct(JobsOf(slug, runs))
  {
  }

  /** Each run of each target is queued exactly once. */
  lemma QueueMeaning(slugs: seq<string>, runs: nat)
    requires Distinct(slugs)
    ensures Distinct(Queue(slugs, runs)) && |Queue(slugs, runs)| == |slugs| * runs
    ensures forall j :: j in Queue(slugs, runs) <==> j.slug in slugs && 1 <= j.run <= runs
  {
    hide Queue;
    QueueCount(slugs, runs);
    QueueDistinct(slugs, runs);
    forall j ensures j in Queue(slugs, runs) <==> j.slug in slugs && 1 <= j.run <= runs { QueueMember(slugs, runs, j); }
  }

  // ---------------------------------------------------------------------------------------
  // Names

  function RunSuffix(run: nat): string { "-run" + Decimal(run) }

  function ReportName(runs: nat, j: Job): string {
    if runs > 1 then j.slug + RunSuffix(j.run) + JSON else j.slug + JSON
  }

  function StateName(j: Job): string { j.slug + RunSuffix(j.run) + STATE }

  predicate EndsWith(s: string, suffix: string) {
    |suffix| <= |s| && s[|s| - |suffix|..] == suffix
  }

  function TrimSuffix(s: string, suffix: string): string {
    if EndsWith(s, suffix) then s[..|s| - |suffix|] else s
  }

  /** The digits at the end. */
  function DigitsOf(s: string): (d: string)
    ensures |d| <= |s| && AllDigits(d)
  {
    if |s| == 0 || !IsDigit(s[|s| - 1]) then "" else DigitsOf(s[..|s| - 1]) + [s[|s| - 1]]
  }

  /** The match of "-run" and digits at the end of the text. */
  predicate HasRunSuffix(s: string) {
    DigitsOf(s) != "" && EndsWith(s[..|s| - |DigitsOf(s)|], "-run")
  }

  /** Slug and run of a report's name without its extension. */
  function SlugFromStem(base: string): (string, nat) {
    if HasRunSuffix(base) then (Stem(base), RunOf(DigitsOf(base))) else (base, 1)
  }

  function SlugFromFile(name: string): (string, nat) { SlugFromStem(TrimSuffix(Base(name), JSON)) }

  /** What precedes the run suffix. */
  function Stem(s: string): string
    requires HasRunSuffix(s)
  {
    s[..|s| - |DigitsOf(s)| - 4]
  }

  /** A run number that does not fit is ignored, although its suffix is still removed. */
  function RunOf(digits: string): nat
    requires AllDigits(digits)
  {
    if ParseDecimal(digits) <= MAX_INT then ParseDecimal(digits) else 1
  }

  lemma {:induction false} DigitsAfter(head: string, digits: string)
    requires AllDigits(digits) && |head| > 0 && !IsDigit(head[|head| - 1])
    ensures DigitsOf(head + digits) == digits
  {
    var s := head + digits;
    if |digits| > 0 {
      var m := |digits| - 1;
      DigitsAfter(head, digits[..m]);
      assert s[..|s| - 1] == head + digits[..m];
      assert s[|s| - 1] == digits[m] && digits == digits[..m] + [digits[m]];
    }
  }

  lemma SuffixOf(slug: string, run: nat)
    ensures var s := slug + RunSuffix(run);
            HasRunSuffix(s) && DigitsOf(s) == Decimal(run) && Stem(s) == slug
  {
    var s, d := slug + RunSuffix(run), Decimal(run);
    DecimalRoundTrip(run);
    var head := slug + "-run";
    assert s == head + d;
    DigitsAfter(head, d);
    assert s[..|s| - |d|] == head;
    assert head[|head| - 4..] == "-run";
  }

  lemma SuffixDecodes(slug: string, run: nat)
    requires run <= MAX_INT
    ensures SlugFromStem(slug + RunSuffix(run)) == (slug, run)
  {
    hide HasRunSuffix, DigitsOf, Stem, RunSuffix;
    SuffixOf(slug, run);
    assert RunOf(Decimal(run)) == run by { DecimalRoundTrip(run); }
  }

  /** A stem ends in a run suffix exactly when it ends in "-run" and digits. */
  lemma RunSuffixIff(s: string)
    ensures HasRunSuffix(s) <==> exists head, digits :: digits != "" && AllDigits(digits) && s == head + "-run" + digits
  {
    var d := DigitsOf(s);
    DigitsAtEnd(s);
    if HasRunSuffix(s) {
      var before := s[..|s| - |d|];
      assert before == before[..|before| - 4] + "-run";
      assert s == before[..|before| - 4] + "-run" + d;
    }
    if head: string, digits: string :| digits != "" && AllDigits(digits) && s == head + "-run" + digits {
      DigitsAfter(head + "-run", digits);
      assert s[..|s| - |digits|] == head + "-run" && (head + "-run")[|head|..] == "-run";
    }
  }

  lemma {:induction false} DigitsAtEnd(s: string)
    ensures s == s[..|s| - |DigitsOf(s)|] + DigitsOf(s)
  {
    if |s| > 0 && IsDigit(s[|s| - 1]) { DigitsAtEnd(s[..|s| - 1]); }
  }

  /** A run number beyond the largest integer is read as 1; the slug is still read back. */
  lemma LargeRunDecodes(slug: string, run: nat)
    ensures SlugFromStem(slug + RunSuffix(run)) == (slug, if run <= 0x7FFF_FFFF_FFFF_FFFF then run else 1)
  {
    hide HasRunSuffix, DigitsOf, Stem, RunSuffix;
    SuffixOf(slug, run);
    assert ParseDecimal(Decimal(run)) == run by { DecimalRoundTrip(run); }
  }

  lemma TrimmedSuffix(s: string, suffix: string)
    ensures TrimSuffix(s + suffix, suffix) == s
    ensures (forall head :: s != head + suffix) ==> TrimSuffix(s, suffix) == s
  {
    if EndsWith(s, suffix) { assert s == s[..|s| - |suffix|] + suffix; }
    assert (s + suffix)[|s|..] == suffix;
    assert (s + suffix)[..|s|] == s;
  }

  // ---------------------------------------------------------------------------------------
  // Paths

  /** The last element of a slug, and the directory its files go to. */
  function Leaf(slug: string): string { slug[|slug| - TailLength('/', slug)..] }

  function Folder(dir: string, slug: string): string {
    if |Leaf(slug)| == |slug| then dir else dir + "/" + slug[..|slug| - |Leaf(slug)| - 1]
  }

  function ReportPath(dir: string, runs: nat, j: Job): string { Clean(dir + "/" + ReportName(runs, j)) }

  function StatePath(dir: string, j: Job): string { Clean(dir + "/" + StateName(j)) }

  lemma LeafIsFree(slug: string)
    ensures Free('/', Leaf(slug))
    ensures |Leaf(slug)| < |slug| ==> slug[|slug| - |Leaf(slug)| - 1] == '/'
    ensures Free('/', slug) ==> Leaf(slug) == slug
  {
    hide TailLength;
    var k := |slug| - TailLength('/', slug);
    var leaf := Leaf(slug);
    forall i | 0 <= i < |leaf| ensures leaf[i] != '/' { TailIsFree('/', slug, k + i); }
    if k > 0 { SeparatorBeforeTail('/', slug); }
    if Free('/', slug) { NoSlashTail(slug); }
  }

  /** Where a name that starts with a slug ends up. */
  lemma InFolder(dir: string, slug: string, tail: string)
    ensures dir + "/" + (slug + tail) == Folder(dir, slug) + "/" + (Leaf(slug) + tail)
  {
    LeafIsFree(slug);
    var leaf := Leaf(slug);
    if |leaf| < |slug| {
      var head := slug[..|slug| - |leaf| - 1];
      assert slug == head + "/" + leaf;
      assert dir + "/" + (head + "/" + leaf + tail) == (dir + "/" + head) + "/" + (leaf + tail);
    } else {
      assert slug == leaf;
    }
  }

  /** The part of a report's name after the slug. */
  function ReportTail(runs: nat, run: nat): string { if runs > 1 then RunSuffix(run) + JSON else JSON }

  lemma TailsAreFiles(slug: string, runs: nat, run: nat)
    ensures Free('/', slug) ==> IsFile(slug + ReportTail(runs, run)) && IsFile(slug + (RunSuffix(run) + STATE))
  {
    DecimalRoundTrip(run);
    assert |slug + ReportTail(runs, run)| > 2 && |slug + (RunSuffix(run) + STATE)| > 2;
  }

  lemma ReportPathIs(dir: string, runs: nat, j: Job)
    requires dir != ""
    ensures ReportPath(dir, runs, j) == Clean(Folder(dir, j.slug) + "/" + ReportName(runs, Job(Leaf(j.slug), j.run)))
    ensures StatePath(dir, j) == Clean(Folder(dir, j.slug) + "/" + StateName(Job(Leaf(j.slug), j.run)))
    ensures IsFile(ReportName(runs, Job(Leaf(j.slug), j.run))) && IsFile(StateName(Job(Leaf(j.slug), j.run)))
    ensures Folder(dir, j.slug) != ""
    ensures Free('/', j.slug) ==> Leaf(j.slug) == j.slug && Folder(dir, j.slug) == dir
  {
    hide Clean, Leaf;
    var leaf := Leaf(j.slug);
    LeafIsFree(j.slug);
    InFolder(dir, j.slug, ReportTail(runs, j.run));
    InFolder(dir, j.slug, RunSuffix(j.run) + STATE);
    TailsAreFiles(leaf, runs, j.run);
    assert ReportName(runs, j) == j.slug + ReportTail(runs, j.run);
    assert ReportName(runs, Job(leaf, j.run)) == leaf + ReportTail(runs, j.run);
    assert StateName(j) == j.slug + (RunSuffix(j.run) + STATE);
    assert StateName(Job(leaf, j.run)) == leaf + (RunSuffix(j.run) + STATE);
  }

  lemma BaseOfReport(dir: string, runs: nat, j: Job)
    requires dir != ""
    ensures Base(ReportPath(dir, runs, j)) == ReportName(runs, Job(Leaf(j.slug), j.run))
  {
    hide Base, Clean, Leaf, ReportName, Folder;
    ReportPathIs(dir, runs, j);
    var name := ReportName(runs, Job(Leaf(j.slug), j.run));
    CleanBelow(Folder(dir, j.slug), name);
    PrefixShape(Folder(dir, j.slug));
    BaseBelow(Prefix(Folder(dir, j.slug)), name);
  }

  /** With two or more runs, the slug and the run are read back exactly; of a slug with slashes,
      the last element is. */
  lemma RunNameDecodes(dir: string, runs: nat, j: Job)
    requires dir != "" && 1 < runs <= MAX_INT && 1 <= j.run <= runs
    ensures SlugFromFile(ReportPath(dir, runs, j)) == (Leaf(j.slug), j.run)
    ensures Free('/', j.slug) ==> SlugFromFile(ReportPath(dir, runs, j)) == (j.slug, j.run)
  {
    hide Base, SlugFromStem, TrimSuffix, Leaf, ReportPath, RunSuffix;
    var leaf := Leaf(j.slug);
    LeafIsFree(j.slug);
    BaseOfReport(dir, runs, j);
    TrimmedSuffix(leaf + RunSuffix(j.run), JSON);
    SuffixDecodes(leaf, j.run);
  }

  /** With one run per target the slug is read back exactly when it does not itself end in a run
      suffix. */
  lemma SingleNameDecodesIff(dir: string, j: Job)
    requires dir != "" && Free('/', j.slug)
    ensures SlugFromFile(ReportPath(dir, 1, j)) == (j.slug, 1) <==> !HasRunSuffix(j.slug)
  {
    hide Base, TrimSuffix, Leaf, ReportPath, SlugFromStem, HasRunSuffix;
    LeafIsFree(j.slug);
    BaseOfReport(dir, 1, j);
    TrimmedSuffix(j.slug, JSON);
    StemIsShorter(j.slug);
  }

  lemma StemIsShorter(s: string)
    ensures SlugFromStem(s) == (s, 1) <==> !HasRunSuffix(s)
  {
    hide DigitsOf, RunOf;
    if HasRunSuffix(s) { assert |Stem(s)| < |s|; }
  }

  lemma RunSuffixMatters()
    ensures SlugFromFile("db-run7.json") == ("db", 7) && SlugFromFile("db-run7.json") != ("db-run7", 1)
  {
    hide SlugFromStem, TrimSuffix, Base, DigitsOf;
    assert Decimal(7) == "7";
    var name := "db" + RunSuffix(7) + JSON;
    assert name == "db-run7.json";
    BaseBelow("", name);
    assert "" + name == name;
    TrimmedSuffix("db" + RunSuffix(7), JSON);
    SuffixDecodes("db", 7);
  }

  /** Two jobs write the same report file exactly when their slugs lead to the same folder and
      end in the same element, and their runs are the same; likewise for the state file. */
  lemma JobsShareFileIff(dir: string, runs: nat, a: Job, b: Job)
    requires dir != "" && (runs <= 1 ==> a.run == b.run)
    ensures var same := Prefix(Folder(dir, a.slug)) == Prefix(Folder(dir, b.slug))
                        && Leaf(a.slug) == Leaf(b.slug) && a.run == b.run;
            && (ReportPath(dir, runs, a) == ReportPath(dir, runs, b) <==> same)
            && (StatePath(dir, a) == StatePath(dir, b) <==> same)
  {
    hide Clean, Leaf, Folder, ReportName, StateName, Prefix;
    var x, y := Job(Leaf(a.slug), a.run), Job(Leaf(b.slug), b.run);
    ReportPathIs(dir, runs, a);
    ReportPathIs(dir, runs, b);
    SamePathIff(Folder(dir, a.slug), ReportName(runs, x), Folder(dir, b.slug), ReportName(runs, y));
    SamePathIff(Folder(dir, a.slug), StateName(x), Folder(dir, b.slug), StateName(y));
    SameNames(runs, x, y);
  }

  lemma SameNames(runs: nat, a: Job, b: Job)
    requires runs <= 1 ==> a.run == b.run
    ensures ReportName(runs, a) == ReportName(runs, b) || StateName(a) == StateName(b) ==> a == b
  {
    if ReportName(runs, a) == ReportName(runs, b) {
      TrimmedSuffix(if runs > 1 then a.slug + RunSuffix(a.run) else a.slug, JSON);
      TrimmedSuffix(if runs > 1 then b.slug + RunSuffix(b.run) else b.slug, JSON);
      SameStem(a, b);
    }
    if StateName(a) == StateName(b) {
      TrimmedSuffix(a.slug + RunSuffix(a.run), STATE);
      TrimmedSuffix(b.slug + RunSuffix(b.run), STATE);
      SameStem(a, b);
    }
  }

  /** No two jobs with slugs free of slashes write the same report or the same state file. */
  lemma JobsHaveOwnFiles(dir: string, runs: nat, a: Job, b: Job)
    requires dir != "" && (runs <= 1 ==> a.run == b.run)
    requires Free('/', a.slug) && Free('/', b.slug) && a != b
    ensures ReportPath(dir, runs, a) != ReportPath(dir, runs, b) && StatePath(dir, a) != StatePath(dir, b)
  {
    hide ReportPath, StatePath, Leaf;
    JobsShareFileIff(dir, runs, a, b);
    LeafIsFree(a.slug);
    LeafIsFree(b.slug);
  }

  /** With slashes two different slugs can share their files: for every directory these do. */
  lemma SlashesCollide(dir: string, runs: nat, run: nat)
    requires dir != ""
    ensures ReportPath(dir, runs, Job("b", run)) == ReportPath(dir, runs, Job("a/../b", run))
    ensures StatePath(dir, Job("b", run)) == StatePath(dir, Job("a/../b", run))
  {
    hide ReportPath, StatePath, Prefix;
    var slug := "a/../b";
    assert slug == "a/.." + ['/'] + "b";
    TailLengthIs("a/..", "b", '/');
    assert Leaf(slug) == "b" && slug[..|slug| - 2] == "a/..";
    assert dir + "/" + "a/.." == dir + "/" + "a" + "/..";
    UpAndDown(dir, "a");
    LeafIsFree("b");
    JobsShareFileIff(dir, runs, Job("b", run), Job(slug, run));
  }

  /** And a targets file may hold both. */
  lemma CollidingTargets(env: Targets.Env, u: string, v: string)
    requires Targets.Word(u) && Targets.Word(v) && u != v && !env.parse(u).Invalid? && !env.parse(v).Invalid?
    ensures var specs := [Targets.TargetSpec("b", u), Targets.TargetSpec("a/../b", v)];
            Targets.Parse(env, Targets.Render(specs)) == Targets.ParseResult.Targets(specs)
  {
    hide Targets.Parse, Targets.Render, Targets.Word;
    SlugsAreWords();
    Targets.RenderRoundTrip(env, [Targets.TargetSpec("b", u), Targets.TargetSpec("a/../b", v)]);
  }

  lemma SlugsAreWords()
    ensures Targets.Word("b") && Targets.Word("a/../b")
  {
    assert forall i :: 0 <= i < 6 ==> "a/../b"[i] == 'a' || "a/../b"[i] == 'b' || "a/../b"[i] == '.' || "a/../b"[i] == '/';
  }

  lemma SameStem(a: Job, b: Job)
    ensures a.slug + RunSuffix(a.run) == b.slug + RunSuffix(b.run) ==> a == b
  {
    hide HasRunSuffix;
    if a.slug + RunSuffix(a.run) == b.slug + RunSuffix(b.run) {
      SuffixOf(a.slug, a.run);
      SuffixOf(b.slug, b.run);
      DecimalRoundTrip(a.run);
      DecimalRoundTrip(b.run);
    }
  }

  /** With two or more runs no report overwrites a state file or is named like one; slashes in
      slugs change nothing here. */
  lemma ReportsAreNotStates(dir: string, runs: nat, a: Job, b: Job)
    requires dir != "" && runs > 1
    ensures ReportPath(dir, runs, a) != StatePath(dir, b)
    ensures !EndsWith(Base(ReportPath(dir, runs, a)), STATE)
  {
    hide Clean, Leaf, Folder, ReportName, StateName, Prefix, Base;
    var x, y := Job(Leaf(a.slug), a.run), Job(Leaf(b.slug), b.run);
    ReportPathIs(dir, runs, a);
    ReportPathIs(dir, runs, b);
    BaseOfReport(dir, runs, a);
    NamesDiffer(runs, x, y);
    SamePathIff(Folder(dir, a.slug), ReportName(runs, x), Folder(dir, b.slug), StateName(y));
  }

  lemma NamesDiffer(runs: nat, a: Job, b: Job)
    requires runs > 1
    ensures ReportName(runs, a) != StateName(b) && !EndsWith(ReportName(runs, a), STATE)
  {
    var s := ReportName(runs, a);
    DecimalRoundTrip(a.run);
    var d := Decimal(a.run);
    assert s[|s| - 6] == d[|d| - 1];
    assert EndsWith(s, STATE) ==> s[|s| - 6] == STATE[5];
    var t := StateName(b);
    assert t[|t| - 6] == STATE[5];
  }

  /** With one run, a report overwrites a state file exactly when they lead to the same folder
      and the slug ends the way that state file's name does. */
  lemma SingleReportOverwritesIff(dir: string, a: Job, b: Job)
    requires dir != ""
    ensures ReportPath(dir, 1, a) == StatePath(dir, b) <==>
            Prefix(Folder(dir, a.slug)) == Prefix(Folder(dir, b.slug))
            && Leaf(a.slug) == Leaf(b.slug) + RunSuffix(b.run) + ".state"
    ensures Free('/', a.slug) && Free('/', b.slug) ==>
              (ReportPath(dir, 1, a) == StatePath(dir, b) <==> a.slug == b.slug + RunSuffix(b.run) + ".state")
  {
    hide Clean, Leaf, Folder, ReportName, StateName, Prefix;
    var x, y := Job(Leaf(a.slug), a.run), Job(Leaf(b.slug), b.run);
    ReportPathIs(dir, 1, a);
    ReportPathIs(dir, 1, b);
    SamePathIff(Folder(dir, a.slug), ReportName(1, x), Folder(dir, b.slug), StateName(y));
    OverwritingNames(x, y);
  }

  lemma OverwritingNames(a: Job, b: Job)
    ensures ReportName(1, a) == StateName(b) <==> a.slug == b.slug + RunSuffix(b.run) + ".state"
  {
    var stem := b.slug + RunSuffix(b.run) + ".state";
    assert StateName(b) == stem + JSON;
    TrimmedSuffix(stem, JSON);
    TrimmedSuffix(a.slug, JSON);
  }

  // ---------------------------------------------------------------------------------------
  // Scanning a directory for reports

  const META := ".meta.json"

  datatype Entry = Entry(name: string, isDir: bool)

  /** A scan keeps JSON files that are neither states nor metadata. */
  predicate Keeps(e: Entry) {
    !e.isDir && EndsWith(e.name, JSON) && !EndsWith(e.name, STATE) && !EndsWith(e.name, META)
  }

  function Kept(dir: string, entries: seq<Entry>): seq<string> {
    if |entries| == 0 then []
    else
      var n := |entries| - 1;
      Kept(dir, entries[..n]) + if Keeps(entries[n]) then [Clean(dir + "/" + entries[n].name)] else []
  }

  /** The scan of one directory; it does not descend, and an empty result is an error. */
  method Scan(dir: string, entries: seq<Entry>) returns (files: Option<seq<string>>)
    ensures files == if Kept(dir, entries) == [] then None else Some(Sort(ByName(Same), Kept(dir, entries)))
  {
    var found: seq<string> := [];
    for i := 0 to |entries|
      invariant found == Kept(dir, entries[..i])
    {
      assert entries[..i + 1][..i] == entries[..i];
      if entries[i].isDir || !EndsWith(entries[i].name, JSON) { continue; }
      if EndsWith(entries[i].name, STATE) || EndsWith(entries[i].name, META) { continue; }
      found := found + [Clean(dir + "/" + entries[i].name)];
    }
    assert entries[..|entries|] == entries;
    files := if |found| == 0 then None else Some(Sort(ByName(Same), found));
  }

  /** The scan finds a path exactly when an entry it keeps has it, and lists paths in order. */
  lemma ScanMeaning(dir: string, entries: seq<Entry>, path: string)
    ensures var files := Sort(ByName(Same), Kept(dir, entries));
            && Sorted(ByName(Same), files)
            && (path in files <==> exists e :: e in entries && Keeps(e) && path == Clean(dir + "/" + e.name))
  {
    hide Keeps, Clean, Less, Kept;
    NamesOrder(Same);
    SortCorrect(ByName(Same), Kept(dir, entries));
    var files := Sort(ByName(Same), Kept(dir, entries));
    assert path in files <==> path in multiset(files);
    assert path in Kept(dir, entries) <==> path in multiset(Kept(dir, entries));
    KeptMeaning(dir, entries, path);
  }

  lemma {:induction false} KeptMeaning(dir: string, entries: seq<Entry>, path: string)
    ensures path in Kept(dir, entries) <==> exists e :: e in entries && Keeps(e) && path == Clean(dir + "/" + e.name)
  {
    hide Keeps, Clean;
    if |entries| > 0 {
      var n := |entries| - 1;
      KeptMeaning(dir, entries[..n], path);
      assert entries == entries[..n] + [entries[n]];
    }
  }

  lemma EndsWithJSON(s: string, ending: string)
    ensures EndsWith(s + JSON, JSON) && (EndsWith(s + JSON, ending + JSON) <==> EndsWith(s, ending))
  {
    var t := s + JSON;
    assert t[|s|..] == JSON;
    if |ending| <= |s| {
      var k := |s| - |ending|;
      assert t[k..] == s[k..] + JSON;
      assert (ending + JSON)[..|ending|] == ending && (s[k..] + JSON)[..|ending|] == s[k..];
    }
  }

  /** A report can be found by scanning the output directory exactly when its slug leads to that
      directory and, with one run, ends in neither ".state" nor ".meta"; a report of a slug that
      leads elsewhere is never seen. */
  lemma ReportFoundIff(dir: string, runs: nat, j: Job)
    requires dir != ""
    ensures (exists name :: IsFile(name) && Keeps(Entry(name, false)) && ReportPath(dir, runs, j) == Clean(dir + "/" + name)) <==>
            && Prefix(Folder(dir, j.slug)) == Prefix(dir)
            && (runs > 1 || (!EndsWith(Leaf(j.slug), ".state") && !EndsWith(Leaf(j.slug), ".meta")))
  {
    hide Clean, Leaf, Folder, ReportName, Prefix, Keeps, IsFile;
    var own := ReportName(runs, Job(Leaf(j.slug), j.run));
    ReportPathIs(dir, runs, j);
    ReportKeptIff(runs, Job(Leaf(j.slug), j.run));
    forall name | IsFile(name)
      ensures ReportPath(dir, runs, j) == Clean(dir + "/" + name) <==>
              Prefix(Folder(dir, j.slug)) == Prefix(dir) && own == name
    {
      SamePathIff(Folder(dir, j.slug), own, dir, name);
    }
  }

  lemma ReportKeptIff(runs: nat, j: Job)
    ensures Keeps(Entry(ReportName(runs, j), false)) <==>
            runs > 1 || (!EndsWith(j.slug, ".state") && !EndsWith(j.slug, ".meta"))
  {
    hide EndsWith;
    assert STATE == ".state" + JSON && META == ".meta" + JSON;
    var stem := if runs > 1 then j.slug + RunSuffix(j.run) else j.slug;
    EndsWithJSON(stem, ".state");
    EndsWithJSON(stem, ".meta");
    if runs > 1 {
      DigitEnds(j.slug, j.run, ".state");
      DigitEnds(j.slug, j.run, ".meta");
    }
  }

  lemma DigitEnds(slug: string, run: nat, ending: string)
    requires |ending| > 0 && !IsDigit(ending[|ending| - 1])
    ensures !EndsWith(slug + RunSuffix(run), ending)
  {
    DecimalRoundTrip(run);
    var s, d := slug + RunSuffix(run), Decimal(run);
    assert s[|s| - 1] == d[|d| - 1];
    assert |ending| <= |s| ==> s[|s| - |ending|..][|ending| - 1] == s[|s| - 1];
  }
}
