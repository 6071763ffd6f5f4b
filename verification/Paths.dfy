/** File paths with slashes: joining, cleaning and taking the last element (path/filepath on
    Unix). */
module Paths {
  import opened Text

  /** The elements between slashes; empty ones are kept. */
  function Components(s: string): seq<string> {
    var n := |s| - TailLength('/', s);
    if n == 0 then [s] else Components(s[..n - 1]) + [s[n..]]
  }

  predicate Rooted(p: string) { |p| > 0 && p[0] == '/' }

  /** One element after those resolved so far: empty and "." elements go, ".." removes the
      element before it, and at the root it goes too. */
  function Push(rooted: bool, done: seq<string>, c: string): seq<string> {
    if c == "" || c == "." then done
    else if c != ".." then done + [c]
    else if |done| > 0 && done[|done| - 1] != ".." then done[..|done| - 1]
    else if rooted then done
    else done + [c]
  }

  function Resolve(rooted: bool, cs: seq<string>): seq<string> {
    if |cs| == 0 then [] else Push(rooted, Resolve(rooted, cs[..|cs| - 1]), cs[|cs| - 1])
  }

  function Resolved(p: string): seq<string> { Resolve(Rooted(p), Components(p)) }

  /** filepath.Clean */
  function Clean(p: string): string {
    var done := Resolved(p);
    if Rooted(p) then "/" + Join(done, "/")
    else if done == [] then "."
    else Join(done, "/")
  }

  /** What precedes a file directly below `p` in a clean path. */
  function Prefix(p: string): string {
    var done := Resolved(p);
    (if Rooted(p) then "/" else "") + if done == [] then "" else Join(done, "/") + "/"
  }

  /** filepath.Base */
  function Base(p: string): string {
    if p == "" then "." else
    var q := DropSlashes(p);
    if q == "" then "/" else q[|q| - TailLength('/', q)..]
  }

  function DropSlashes(p: string): string {
    if |p| > 0 && p[|p| - 1] == '/' then DropSlashes(p[..|p| - 1]) else p
  }

  predicate IsFile(name: string) {
    Free('/', name) && name != "" && name != "." && name != ".."
  }

  lemma ComponentsBelow(q: string, name: string)
    requires Free('/', name)
    ensures Components(q + "/" + name) == Components(q) + [name]
  {
    var p := q + "/" + name;
    assert p == q + ['/'] + name;
    TailLengthIs(q, name, '/');
    assert p[..|q|] == q && p[|q| + 1..] == name;
  }

  /** The elements below a directory are resolved one by one. */
  lemma ResolvedBelow(q: string, name: string)
    requires q != "" && Free('/', name)
    ensures Rooted(q + "/" + name) == Rooted(q)
    ensures Resolved(q + "/" + name) == Push(Rooted(q), Resolved(q), name)
  {
    hide Components, Push;
    ComponentsBelow(q, name);
    assert (Components(q) + [name])[..|Components(q)|] == Components(q);
  }

  lemma {:induction false} JoinLast(parts: seq<string>, last: string)
    ensures Join(parts + [last], "/") == if parts == [] then last else Join(parts, "/") + "/" + last
  {
    if |parts| == 0 {
      assert parts + [last] == [last];
    } else {
      var more := parts + [last];
      assert more[1..] == parts[1..] + [last];
      JoinLast(parts[1..], last);
      if |parts| == 1 {
        assert Join(more, "/") == parts[0] + "/" + last;
      } else {
        var a, b := parts[0] + "/", Join(parts[1..], "/");
        assert Join(more, "/") == a + (b + "/" + last) == a + b + "/" + last;
      }
    }
  }

  /** A file below a directory keeps its name; what precedes it depends on the directory alone. */
  lemma CleanBelow(q: string, name: string)
    requires q != "" && IsFile(name)
    ensures Clean(q + "/" + name) == Prefix(q) + name
  {
    hide Resolved;
    ResolvedBelow(q, name);
    JoinLast(Resolved(q), name);
    var done := Resolved(q);
    if done != [] && Rooted(q) {
      assert "/" + (Join(done, "/") + "/" + name) == "/" + (Join(done, "/") + "/") + name;
    }
  }

  lemma PrefixShape(q: string)
    ensures Prefix(q) == "" || Prefix(q)[|Prefix(q)| - 1] == '/'
  {
    hide Resolved;
  }

  lemma PrefixShows(p: string, a: string)
    requires p != "" && p[|p| - 1] == '/'
    ensures !Free('/', p + a)
  {
    assert (p + a)[|p| - 1] == '/';
  }

  /** A clean path below a directory determines the file's name and what precedes it. */
  lemma SplitBelow(p: string, a: string, q: string, b: string)
    requires Free('/', a) && Free('/', b)
    requires (p == "" || p[|p| - 1] == '/') && (q == "" || q[|q| - 1] == '/')
    requires p + a == q + b
    ensures p == q && a == b
  {
    assert "" + a == a && "" + b == b;
    if p != "" { PrefixShows(p, a); }
    if q != "" { PrefixShows(q, b); }
    if p != "" && q != "" {
      var x, y := p[..|p| - 1], q[..|q| - 1];
      assert p == x + ['/'] && q == y + ['/'];
      LastField(x, a, y, b, '/');
    }
  }

  lemma SamePathIff(q: string, a: string, r: string, b: string)
    requires q != "" && r != "" && IsFile(a) && IsFile(b)
    ensures Clean(q + "/" + a) == Clean(r + "/" + b) <==> Prefix(q) == Prefix(r) && a == b
  {
    hide Clean, Prefix;
    CleanBelow(q, a);
    CleanBelow(r, b);
    PrefixShape(q);
    PrefixShape(r);
    if Prefix(q) + a == Prefix(r) + b { SplitBelow(Prefix(q), a, Prefix(r), b); }
  }

  lemma {:induction false} NoSlashTail(s: string)
    requires Free('/', s)
    ensures TailLength('/', s) == |s|
  {
    if |s| > 0 { NoSlashTail(s[..|s| - 1]); }
  }

  lemma BaseBelow(prefix: string, name: string)
    requires prefix == "" || prefix[|prefix| - 1] == '/'
    requires Free('/', name) && name != ""
    ensures Base(prefix + name) == name
  {
    var p := prefix + name;
    assert p[|p| - 1] == name[|name| - 1];
    if prefix == "" {
      NoSlashTail(name);
      assert p == name && name[|name| - |name|..] == name;
    } else {
      var dir := prefix[..|prefix| - 1];
      assert p == dir + ['/'] + name;
      TailLengthIs(dir, name, '/');
      assert p[|p| - |name|..] == name;
    }
  }

  /** Entering a directory and leaving it again changes nothing. */
  lemma UpAndDown(q: string, name: string)
    requires q != "" && IsFile(name)
    ensures Prefix(q + "/" + name + "/..") == Prefix(q)
  {
    hide Components, Resolve;
    ResolvedBelow(q, name);
    ResolvedBelow(q + "/" + name, "..");
    assert q + "/" + name + "/.." == (q + "/" + name) + "/" + "..";
  }

  /** Resolved elements are neither empty nor "."; ".." only leads, and never at the root. */
  ghost predicate Tidy(rooted: bool, done: seq<string>) {
    && (forall c :: c in done ==> c != "" && c != "." && (rooted ==> c != ".."))
    && forall i, j :: 0 <= i < j < |done| && done[j] == ".." ==> done[i] == ".."
  }

  lemma {:induction false} ResolveIsTidy(rooted: bool, cs: seq<string>)
    ensures Tidy(rooted, Resolve(rooted, cs))
  {
    if |cs| > 0 {
      var n := |cs| - 1;
      ResolveIsTidy(rooted, cs[..n]);
      PushIsTidy(rooted, Resolve(rooted, cs[..n]), cs[n]);
    }
  }

  lemma PushIsTidy(rooted: bool, done: seq<string>, c: string)
    requires Tidy(rooted, done)
    ensures Tidy(rooted, Push(rooted, done, c))
  {
    var n := |done| - 1;
    forall x | x in Push(rooted, done, c) ensures x in done || (x == c && c != "" && c != "." && (rooted ==> c != "..")) {
      PushedFrom(rooted, done, c, x);
    }
    if |done| > 0 && done[n] == ".." {
      assert done[n] in done;
      forall i | 0 <= i < |done| ensures done[i] == ".." { if i < n { assert done[n] == ".."; } }
    }
  }

  lemma PushedFrom(rooted: bool, done: seq<string>, c: string, x: string)
    requires Tidy(rooted, done) && x in Push(rooted, done, c)
    ensures x in done || (x == c && c != "" && c != "." && (rooted ==> c != ".."))
  {
    if |done| > 0 && x in done[..|done| - 1] { assert x in done; }
  }

  /** A clean path is never empty, keeps whether it is rooted, and its elements are tidy: none is empty or
      ".", and ".." only leads a path that is not rooted. */
  lemma CleanIsTidy(p: string)
    ensures Clean(p) != "" && Rooted(Clean(p)) == Rooted(p)
    ensures Tidy(Rooted(p), Resolved(p)) && forall c :: c in Resolved(p) ==> Free('/', c)
    ensures Clean(p) == (if Rooted(p) then "/" else "") + Join(Resolved(p), "/") || (Resolved(p) == [] && !Rooted(p) && Clean(p) == ".")
  {
    ResolveIsTidy(Rooted(p), Components(p));
    ComponentsAreFree(p);
    ResolvedAreComponents(Rooted(p), Components(p));
    var done := Resolved(p);
    if done != [] {
      assert done[0] in done && done[0] != "";
      JoinStarts(done);
    }
  }

  lemma JoinStarts(parts: seq<string>)
    requires parts != [] && parts[0] != ""
    ensures Join(parts, "/") != "" && Join(parts, "/")[0] == parts[0][0]
  {
  }

  lemma {:induction false} ComponentsAreFree(s: string)
    ensures forall c :: c in Components(s) ==> Free('/', c)
  {
    var n := |s| - TailLength('/', s);
    forall k | n <= k < |s| ensures s[k] != '/' { TailIsFree('/', s, k); }
    if n > 0 { ComponentsAreFree(s[..n - 1]); }
  }

  lemma {:induction false} ResolvedAreComponents(rooted: bool, cs: seq<string>)
    ensures forall c :: c in Resolve(rooted, cs) ==> c in cs
  {
    if |cs| > 0 {
      var n := |cs| - 1;
      ResolvedAreComponents(rooted, cs[..n]);
      assert cs == cs[..n] + [cs[n]];
    }
  }

  /** The last element of a path: never empty and free of slashes, unless the path is nothing but
      slashes; slashes at its end do not matter. */
  lemma BaseIs(p: string)
    ensures Base(p) != ""
    ensures p == "" ==> Base(p) == "."
    ensures p != "" && (forall i :: 0 <= i < |p| ==> p[i] == '/') ==> Base(p) == "/"
    ensures (exists i :: 0 <= i < |p| && p[i] != '/') ==> Free('/', Base(p)) && Base(p + "/") == Base(p)
  {
    DropSlashesIs(p);
    var q := DropSlashes(p);
    assert (p + "/")[..|p|] == p && DropSlashes(p + "/") == q;
    if q != "" {
      forall k | |q| - TailLength('/', q) <= k < |q| ensures q[k] != '/' { TailIsFree('/', q, k); }
      assert TailLength('/', q) > 0;
    }
  }

  lemma {:induction false} DropSlashesIs(p: string)
    ensures var q := DropSlashes(p);
            && (q == "" <==> forall i :: 0 <= i < |p| ==> p[i] == '/')
            && (q != "" ==> q[|q| - 1] != '/')
  {
    if |p| > 0 && p[|p| - 1] == '/' { DropSlashesIs(p[..|p| - 1]); }
  }
}
