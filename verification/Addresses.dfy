/** The addresses of a name: resolution order, outcome order, and the verdict over several. */
module Addresses {
  import opened Model
  import opened Sorting

  /** A resolved address: its text after unmapping, and whether it is IPv4. */
  datatype Addr = Addr(text: string, v4: bool)

  /** The address at `i` is kept: no earlier one has its text. */
  predicate FirstOfText(addrs: seq<Addr>, i: nat)
    requires i < |addrs|
  {
    forall j :: 0 <= j < i ==> addrs[j].text != addrs[i].text
  }

  /** The texts kept of one family, in resolver order. */
  function Kept(addrs: seq<Addr>, v4: bool): seq<string> {
    if |addrs| == 0 then []
    else
      var n := |addrs| - 1;
      Kept(addrs[..n], v4)
      + if addrs[n].v4 == v4 && FirstOfText(addrs, n) then [addrs[n].text] else []
  }

  /** The lookup result: IPv4 first, without duplicates; an empty answer is an error. */
  method ResolveAll(addrs: seq<Addr>) returns (out: Option<seq<string>>)
    ensures out == if |addrs| == 0 then None else Some(Kept(addrs, true) + Kept(addrs, false))
  {
    var v4: seq<string>, v6: seq<string>, seen: set<string> := [], [], {};
    for i := 0 to |addrs|
      invariant v4 == Kept(addrs[..i], true) && v6 == Kept(addrs[..i], false)
      invariant seen == set j | 0 <= j < i :: addrs[j].text
    {
      assert addrs[..i + 1][..i] == addrs[..i];
      var s := addrs[i].text;
      assert FirstOfText(addrs[..i + 1], i) <==> s !in seen;
      if addrs[i].v4 {
        if s !in seen { v4 := v4 + [s]; }
      } else {
        if s !in seen { v6 := v6 + [s]; }
      }
      seen := seen + {s};
    }
    assert addrs[..|addrs|] == addrs;
    KeptCovers(addrs);
    out := if |v4 + v6| == 0 then None else Some(v4 + v6);
  }

  lemma {:induction false} KeptMeaning(addrs: seq<Addr>, v4: bool) returns (at: seq<nat>)
    ensures |at| == |Kept(addrs, v4)|
    ensures forall k :: 0 <= k < |at| ==>
              at[k] < |addrs| && addrs[at[k]] == Addr(Kept(addrs, v4)[k], v4) && FirstOfText(addrs, at[k])
    ensures forall j, k :: 0 <= j < k < |at| ==> at[j] < at[k]
  {
    at := [];
    if |addrs| > 0 {
      var n := |addrs| - 1;
      at := KeptMeaning(addrs[..n], v4);
      forall k | 0 <= k < |at| ensures FirstOfText(addrs, at[k]) && addrs[at[k]] == addrs[..n][at[k]] {
        assert FirstOfText(addrs[..n], at[k]);
      }
      if addrs[n].v4 == v4 && FirstOfText(addrs, n) { at := at + [n]; }
    }
  }

  lemma {:induction false} KeptCovers(addrs: seq<Addr>)
    ensures forall a :: a in addrs ==> a.text in Kept(addrs, true) + Kept(addrs, false)
  {
    if |addrs| > 0 {
      var n := |addrs| - 1;
      KeptCovers(addrs[..n]);
      var before := Kept(addrs[..n], true) + Kept(addrs[..n], false);
      var out := Kept(addrs, true) + Kept(addrs, false);
      assert forall t :: t in before ==> t in out;
      forall a | a in addrs ensures a.text in out {
        if a !in addrs[..n] {
          assert a == addrs[n];
          if FirstOfText(addrs, n) {
            assert a.text in Kept(addrs, a.v4);
          } else {
            var j :| 0 <= j < n && addrs[j].text == a.text;
            assert addrs[..n][j] == addrs[j];
          }
        }
      }
    }
  }

  /** Resolution loses no address, repeats none, puts IPv4 before IPv6 and otherwise keeps the
      resolver's order. */
  lemma ResolvedOrder(addrs: seq<Addr>)
    ensures var out := Kept(addrs, true) + Kept(addrs, false);
            && Distinct(out)
            && (forall a :: a in addrs ==> a.text in out)
            && (forall t :: t in out ==> exists a :: a in addrs && a.text == t)
            && (|addrs| > 0 ==> |out| > 0)
  {
    var out := Kept(addrs, true) + Kept(addrs, false);
    KeptIsDistinct(addrs);
    KeptCovers(addrs);
    forall t | t in out ensures exists a :: a in addrs && a.text == t {
      KeptWasResolved(addrs, t in Kept(addrs, true), t);
    }
    if |addrs| > 0 {
      assert addrs[0] in addrs;
    }
  }

  lemma KeptWasResolved(addrs: seq<Addr>, v4: bool, t: string)
    requires t in Kept(addrs, v4)
    ensures exists a :: a in addrs && a.text == t
  {
    var at := KeptMeaning(addrs, v4);
    var k :| 0 <= k < |Kept(addrs, v4)| && Kept(addrs, v4)[k] == t;
    assert addrs[at[k]] in addrs;
  }

  lemma KeptIsDistinct(addrs: seq<Addr>)
    ensures Distinct(Kept(addrs, true) + Kept(addrs, false))
  {
    var four, six := Kept(addrs, true), Kept(addrs, false);
    var a4 := KeptMeaning(addrs, true);
    var a6 := KeptMeaning(addrs, false);
    hide Kept;
    forall i, j | 0 <= i < j < |four| ensures four[i] != four[j] {
      assert a4[i] < a4[j] && FirstOfText(addrs, a4[j]);
    }
    forall i, j | 0 <= i < j < |six| ensures six[i] != six[j] {
      assert a6[i] < a6[j] && FirstOfText(addrs, a6[j]);
    }
    forall i, j | 0 <= i < |four| && 0 <= j < |six| ensures four[i] != six[j] {
      assert FirstOfText(addrs, a4[i]) && FirstOfText(addrs, a6[j]);
      assert addrs[a4[i]].v4 && !addrs[a6[j]].v4;
    }
  }

  // ---------------------------------------------------------------------------------------
  // Outcomes in resolver order

  /** The position map: a repeated address would keep its last position, an unknown one gets
      the zero of the map. */
  function Position(addrs: seq<string>, ip: string): nat {
    if |addrs| == 0 then 0
    else if addrs[|addrs| - 1] == ip then |addrs| - 1
    else Position(addrs[..|addrs| - 1], ip)
  }

  lemma {:induction false} PositionIs(addrs: seq<string>, i: nat)
    requires Distinct(addrs) && i < |addrs|
    ensures Position(addrs, addrs[i]) == i
  {
    var n := |addrs| - 1;
    if i < n {
      assert addrs[..n][i] == addrs[i];
      PositionIs(addrs[..n], i);
    }
  }

  function Earlier(addrs: seq<string>): (AddressOutcome, AddressOutcome) -> bool {
    (a: AddressOutcome, b: AddressOutcome) => Position(addrs, a.ip) < Position(addrs, b.ip)
  }

  function SortOutcomes(outcomes: seq<AddressOutcome>, addrs: seq<string>): seq<AddressOutcome> {
    Sort(Earlier(addrs), outcomes)
  }

  /** The outcomes at some indices, in the order given. */
  function At(all: seq<AddressOutcome>, indices: seq<nat>): seq<AddressOutcome>
    requires forall k :: 0 <= k < |indices| ==> indices[k] < |all|
  {
    seq(|indices|, k requires 0 <= k < |indices| => all[indices[k]])
  }

  /** The members of a set of indices below `n`, ascending. */
  function Ascending(s: set<nat>, n: nat): (r: seq<nat>)
    ensures forall k :: 0 <= k < |r| ==> r[k] in s && r[k] < n
  {
    if n == 0 then [] else Ascending(s, n - 1) + if n - 1 in s then [n - 1] else []
  }

  lemma {:induction false} AscendingMeaning(s: set<nat>, n: nat)
    ensures forall i :: i in Ascending(s, n) <==> i in s && i < n
    ensures forall j, k :: 0 <= j < k < |Ascending(s, n)| ==> Ascending(s, n)[j] < Ascending(s, n)[k]
  {
    if n > 0 { AscendingMeaning(s, n - 1); }
  }

  /** Whatever order the outcomes arrive in, sorting lists them in resolver order: the result
      depends only on which addresses answered. */
  lemma SortedOutcomesAre(addrs: seq<string>, all: seq<AddressOutcome>, arrived: seq<nat>)
    requires Distinct(addrs) && |all| == |addrs| && Distinct(arrived)
    requires forall k :: 0 <= k < |arrived| ==> arrived[k] < |all|
    requires forall i :: 0 <= i < |all| ==> all[i].ip == addrs[i]
    ensures SortOutcomes(At(all, arrived), addrs) == At(all, Ascending(set i | i in arrived, |all|))
  {
    hide Ascending, Sort, Position, At, Earlier, Ordering, Sorted;
    var less := Earlier(addrs);
    var sorted := Ascending(set i | i in arrived, |all|);
    AscendingMeaning(set i | i in arrived, |all|);
    var xs, ys := At(all, arrived), At(all, sorted);
    forall i | 0 <= i < |all| ensures Position(addrs, all[i].ip) == i { PositionIs(addrs, i); }
    DistinctAt(addrs, all, arrived);
    DistinctAt(addrs, all, sorted);
    SameOutcomes(all, arrived, sorted);
    SameMembers(xs, ys);
    EarlierOrders(addrs);
    SortCorrect(less, xs);
    AscendingIsSorted(addrs, all, sorted);
    TiesAreEqual(addrs, all, arrived, Sort(less, xs));
    SortedUnique(less, Sort(less, xs), ys);
  }

  lemma EarlierOrders(addrs: seq<string>)
    ensures Ordering(Earlier(addrs))
  {
    hide Position;
  }

  lemma AscendingIsSorted(addrs: seq<string>, all: seq<AddressOutcome>, p: seq<nat>)
    requires forall k :: 0 <= k < |p| ==> p[k] < |all|
    requires forall j, k :: 0 <= j < k < |p| ==> p[j] < p[k]
    requires forall i :: 0 <= i < |all| ==> Position(addrs, all[i].ip) == i
    ensures Sorted(Earlier(addrs), At(all, p))
  {
    hide Position;
  }

  lemma TiesAreEqual(addrs: seq<string>, all: seq<AddressOutcome>, p: seq<nat>, xs: seq<AddressOutcome>)
    requires forall k :: 0 <= k < |p| ==> p[k] < |all|
    requires forall i :: 0 <= i < |all| ==> Position(addrs, all[i].ip) == i
    requires multiset(xs) == multiset(At(all, p))
    ensures forall a, b :: a in xs && b in xs && !Earlier(addrs)(a, b) && !Earlier(addrs)(b, a) ==> a == b
  {
    hide Position;
    forall a | a in xs ensures exists i :: 0 <= i < |all| && all[i] == a {
      assert a in multiset(At(all, p));
      var j :| 0 <= j < |p| && At(all, p)[j] == a;
      assert all[p[j]] == a;
    }
  }

  lemma DistinctAt(addrs: seq<string>, all: seq<AddressOutcome>, p: seq<nat>)
    requires Distinct(p) && forall k :: 0 <= k < |p| ==> p[k] < |all|
    requires forall i :: 0 <= i < |all| ==> Position(addrs, all[i].ip) == i
    ensures Distinct(At(all, p))
  {
    hide Position;
    forall j, k | 0 <= j < k < |p| ensures At(all, p)[j] != At(all, p)[k] {
      assert p[j] != p[k];
    }
  }

  lemma SameOutcomes(all: seq<AddressOutcome>, p: seq<nat>, q: seq<nat>)
    requires (forall i :: i in p ==> i < |all|) && forall i :: i in p <==> i in q
    requires forall k :: 0 <= k < |p| ==> p[k] < |all|
    requires forall k :: 0 <= k < |q| ==> q[k] < |all|
    ensures forall x :: x in At(all, p) <==> x in At(all, q)
  {
    forall x | x in At(all, p) ensures x in At(all, q) {
      var k :| 0 <= k < |p| && all[p[k]] == x;
      assert p[k] in p;
      var j :| 0 <= j < |q| && q[j] == p[k];
      assert At(all, q)[j] == x;
    }
    forall x | x in At(all, q) ensures x in At(all, p) {
      var k :| 0 <= k < |q| && all[q[k]] == x;
      assert q[k] in q;
      var j :| 0 <= j < |p| && p[j] == q[k];
      assert At(all, p)[j] == x;
    }
  }

  // ---------------------------------------------------------------------------------------
  // One verdict over failed addresses

  datatype Verdict = Verdict(status: Status, kind: string, text: string)

  function Weigh(v: Verdict, o: AddressOutcome): Verdict {
    match o.status
    case Pass => v
    case Fail =>
      var w := if v.status != Fail then Verdict(Fail, o.kind, o.error) else v;
      if w.kind == "" then w.(kind := o.kind, text := o.error) else w
    case Timeout => if v.status == Unknown then Verdict(Timeout, o.kind, o.error) else v
    case _ => if v.status == Unknown && v.kind == "" then v.(kind := o.kind, text := o.error) else v
  }

  function Aggregate(outcomes: seq<AddressOutcome>): Verdict {
    if |outcomes| == 0 then Verdict(Unknown, "", "all addresses failed")
    else Weigh(Aggregate(outcomes[..|outcomes| - 1]), outcomes[|outcomes| - 1])
  }

  method AggregateStatus(outcomes: seq<AddressOutcome>) returns (v: Verdict)
    ensures v == Aggregate(outcomes)
  {
    v := Verdict(Unknown, "", "all addresses failed");
    for i := 0 to |outcomes|
      invariant v == Aggregate(outcomes[..i])
    {
      assert outcomes[..i + 1][..i] == outcomes[..i];
      v := Weigh(v, outcomes[i]);
    }
    assert outcomes[..|outcomes|] == outcomes;
  }

  ghost predicate SomeWith(outcomes: seq<AddressOutcome>, status: Status) {
    exists o :: o in outcomes && o.status == status
  }

  /** An explicit failure outweighs a timeout, and a timeout anything else, in every order. The
      reported kind is the failing address's own: a failure is never explained by a timeout. */
  lemma {:induction false} AggregateMeaning(outcomes: seq<AddressOutcome>)
    ensures var v := Aggregate(outcomes);
            && v.status == (if SomeWith(outcomes, Fail) then Fail else if SomeWith(outcomes, Timeout) then Timeout else Unknown)
            && (v.status != Unknown ==>
                  exists o :: o in outcomes && o.status == v.status && o.kind == v.kind && o.error == v.text)
  {
    if |outcomes| > 0 {
      var n := |outcomes| - 1;
      var before, o := outcomes[..n], outcomes[n];
      AggregateMeaning(before);
      assert outcomes == before + [o];
      forall s ensures SomeWith(outcomes, s) <==> SomeWith(before, s) || o.status == s {
        if SomeWith(before, s) {
          var x :| x in before && x.status == s;
          assert x in outcomes;
        }
        if o.status == s { assert o in outcomes; }
      }
      var v, w := Aggregate(before), Aggregate(outcomes);
      assert w == Weigh(v, o);
      if w.status != Unknown {
        if w == v {
          var x :| x in before && x.status == v.status && x.kind == v.kind && x.error == v.text;
          assert x in outcomes;
        } else {
          assert o in outcomes && o.status == w.status && o.kind == w.kind && o.error == w.text;
        }
      }
    }
  }

  /** The outcomes a verdict may speak for. */
  predicate Weighs(o: AddressOutcome, status: Status) {
    if status == Unknown then o.status !in {Pass, Fail, Timeout} else o.status == status
  }

  /** The outcome that gives a verdict its kind and text: the first timeout; else the first with a kind,
      or the last when none has one. */
  ghost predicate Speaks(outcomes: seq<AddressOutcome>, status: Status, i: nat) {
    && i < |outcomes| && Weighs(outcomes[i], status)
    && if status == Timeout then forall j :: 0 <= j < i ==> !Weighs(outcomes[j], status)
       else if outcomes[i].kind != "" then forall j :: 0 <= j < i && Weighs(outcomes[j], status) ==> outcomes[j].kind == ""
       else forall j :: 0 <= j < |outcomes| && Weighs(outcomes[j], status) ==> j <= i && outcomes[j].kind == ""
  }

  ghost predicate Told(outcomes: seq<AddressOutcome>, v: Verdict) {
    if exists o :: o in outcomes && Weighs(o, v.status)
    then exists i: nat :: Speaks(outcomes, v.status, i) && v.kind == outcomes[i].kind && v.text == outcomes[i].error
    else v == Verdict(Unknown, "", "all addresses failed")
  }

  lemma ToldStays(before: seq<AddressOutcome>, o: AddressOutcome, v: Verdict)
    requires Told(before, v)
    requires || !Weighs(o, v.status) || (v.kind != "" && v.status != Timeout)
             || (v.status == Timeout && exists x :: x in before && Weighs(x, Timeout))
    ensures Told(before + [o], v)
  {
    var all := before + [o];
    assert forall j :: 0 <= j < |before| ==> all[j] == before[j];
    if x :| x in before && Weighs(x, v.status) {
      var i: nat :| Speaks(before, v.status, i) && v.kind == before[i].kind && v.text == before[i].error;
      assert Speaks(all, v.status, i);
      assert all[i] in all;
    } else {
      assert forall x :: x in all ==> x in before || x == o;
    }
  }

  lemma ToldAnew(before: seq<AddressOutcome>, o: AddressOutcome, status: Status)
    requires Weighs(o, status)
    requires forall x :: x in before && Weighs(x, status) ==> x.kind == "" && status != Timeout
    ensures Told(before + [o], Verdict(status, o.kind, o.error))
  {
    var all := before + [o];
    forall j | 0 <= j < |before| && Weighs(all[j], status) ensures all[j].kind == "" && status != Timeout { assert all[j] in before; }
    assert Speaks(all, status, |before|);
    assert all[|before|] in all;
  }

  lemma ToldKindless(outcomes: seq<AddressOutcome>, v: Verdict, x: AddressOutcome)
    requires Told(outcomes, v) && v.kind == "" && v.status != Timeout && x in outcomes && Weighs(x, v.status)
    ensures x.kind == ""
  {
    var i: nat :| Speaks(outcomes, v.status, i) && v.kind == outcomes[i].kind && v.text == outcomes[i].error;
    var j :| 0 <= j < |outcomes| && outcomes[j] == x;
  }

  /** Which address explains the verdict: the first timeout; of failures, and of other outcomes, the first
      with a kind, or the last when none has one; and nothing when nothing failed. */
  lemma {:induction false} AggregateTells(outcomes: seq<AddressOutcome>)
    ensures Told(outcomes, Aggregate(outcomes))
  {
    hide Told, Speaks;
    if |outcomes| == 0 {
      NothingTold();
    } else {
      var n := |outcomes| - 1;
      var before, o := outcomes[..n], outcomes[n];
      AggregateTells(before);
      AggregateMeaning(before);
      assert outcomes == before + [o];
      var v := Aggregate(before);
      TellsMore(before, o, v);
    }
  }

  lemma NothingTold()
    ensures Told([], Verdict(Unknown, "", "all addresses failed"))
  {
  }

  lemma TellsMore(before: seq<AddressOutcome>, o: AddressOutcome, v: Verdict)
    requires Told(before, v)
    requires v.status == (if SomeWith(before, Fail) then Fail else if SomeWith(before, Timeout) then Timeout else Unknown)
    ensures Told(before + [o], Weigh(v, o))
  {
    hide Told, Speaks;
    if Weigh(v, o) == v && (o.status == Pass || v.status == Timeout || !Weighs(o, v.status) || v.kind != "") {
      ToldStays(before, o, v);
    } else {
      assert Weigh(v, o) == Verdict(Weigh(v, o).status, o.kind, o.error);
      forall x | x in before && Weighs(x, Weigh(v, o).status) ensures x.kind == "" && Weigh(v, o).status != Timeout {
        ToldKindless(before, v, x);
      }
      ToldAnew(before, o, Weigh(v, o).status);
    }
  }
}
