/** The HTTP probe's address loop: one attempt at a time, each with a slice of the budget. */
module HttpSlices {
  import opened Model
  import opened Sorting

  /** Times are in nanoseconds. An attempt gets no less than a hundred milliseconds. */
  const MILLISECOND := 1_000_000
  const MIN_SLICE := 100 * MILLISECOND

  /** What one request over a pinned address comes to. `stall` is how long it would take
      undisturbed; `prereq` marks a failed name resolution. */
  datatype Answer = Responded(stall: nat) | Failed(status: Status, kind: string, error: string, stall: nat, prereq: bool)

  /** The outcomes recorded so far, first record of an address winning. */
  class AddrTracker {
    var pinned: string
    var outcomes: seq<AddressOutcome>
    var seen: set<string>

    ghost predicate Valid() reads this {
      && seen == (set o | o in outcomes :: o.ip)
      && "" !in seen
      && forall i, j :: 0 <= i < j < |outcomes| ==> outcomes[i].ip != outcomes[j].ip
    }

    constructor ()
      ensures Valid() && outcomes == [] && pinned == ""
    {
      pinned, outcomes, seen := "", [], {};
    }

    method Pin(ip: string)
      requires Valid()
      modifies this`pinned
      ensures Valid() && pinned == ip
    {
      pinned := ip;
    }

    method Record(o: AddressOutcome)
      requires Valid()
      modifies this`outcomes, this`seen
      ensures Valid()
      ensures outcomes == if o.ip == "" || (exists p :: p in old(outcomes) && p.ip == o.ip)
                          then old(outcomes) else old(outcomes) + [o]
    {
      if o.ip == "" || o.ip in seen { return; }
      seen := seen + {o.ip};
      outcomes := outcomes + [o];
    }
  }

  /** The time left, or the layer budget without a deadline; at least a millisecond. */
  function Remaining(deadline: Option<int>, now: int, budget: int): int {
    if deadline.None? then budget else if deadline.value - now <= 0 then MILLISECOND else deadline.value - now
  }

  function Slice(remaining: int, n: nat): int
    requires n > 0 && remaining > 0
  {
    if remaining / n < MIN_SLICE then MIN_SLICE else remaining / n
  }

  function Outcome(ip: string, a: Answer, took: int): AddressOutcome {
    match a
    case Responded(_) => AddressOutcome(ip, Pass, took, "", "")
    case Failed(status, kind, error, _, _) => AddressOutcome(ip, status, took, kind, error)
  }

  /** A response or a failed prerequisite ends the loop. */
  predicate Ends(a: Answer) { a.Responded? || a.prereq }

  /** The number of addresses tried: up to the first answer that ends the loop. */
  function Tried(answers: seq<Answer>): nat {
    if |answers| == 0 then 0 else if Ends(answers[0]) then 1 else 1 + Tried(answers[1..])
  }

  lemma {:induction false} TriedMeaning(answers: seq<Answer>)
    ensures Tried(answers) <= |answers|
    ensures forall i :: 0 <= i < Tried(answers) - 1 ==> !Ends(answers[i])
    ensures Tried(answers) < |answers| ==> Tried(answers) > 0 && Ends(answers[Tried(answers) - 1])
  {
    if |answers| > 0 && !Ends(answers[0]) {
      TriedMeaning(answers[1..]);
      forall i | 0 <= i < Tried(answers) - 1 ensures !Ends(answers[i]) {
        if i > 0 { assert answers[1..][i - 1] == answers[i]; }
      }
    }
  }

  /** How long an attempt takes: no longer than its slice, nor past the deadline. */
  function Took(a: Answer, slice: int, now: int, deadline: Option<int>): int {
    var cut := if deadline.Some? && deadline.value - now < slice then (if deadline.value < now then 0 else deadline.value - now) else slice;
    if a.stall < cut then a.stall else cut
  }

  /** When attempt `i` starts. */
  function StartOf(answers: seq<Answer>, slice: int, start: int, deadline: Option<int>, i: nat): int
    requires i <= |answers|
  {
    if i == 0 then start
    else
      var before := StartOf(answers, slice, start, deadline, i - 1);
      before + Took(answers[i - 1], slice, before, deadline)
  }

  /** What is recorded: the tried addresses, in resolver order, each with its own answer. */
  function Recorded(addrs: seq<string>, answers: seq<Answer>, slice: int, start: int, deadline: Option<int>, n: nat)
    : (r: seq<AddressOutcome>)
    requires n <= |addrs| == |answers|
    ensures |r| == n && forall i :: 0 <= i < n ==> r[i].ip == addrs[i]
  {
    seq(n, i requires 0 <= i < n =>
      Outcome(addrs[i], answers[i], Took(answers[i], slice, StartOf(answers, slice, start, deadline, i), deadline)))
  }

  /** The loop: each address is pinned, tried and recorded, until one responds. */
  method Run(addrs: seq<string>, answers: seq<Answer>, start: int, deadline: Option<int>, budget: int)
    returns (tracker: AddrTracker, passed: bool)
    requires 0 < |addrs| == |answers| && budget > 0
    requires Distinct(addrs) && "" !in addrs
    ensures fresh(tracker) && tracker.Valid()
    ensures var n := Tried(answers);
            var slice := Slice(Remaining(deadline, start, budget), |addrs|);
            && n <= |addrs|
            && tracker.outcomes == Recorded(addrs, answers, slice, start, deadline, n)
            && (passed <==> n > 0 && answers[n - 1].Responded?)
  {
    hide Slice, Took, StartOf, Recorded, Tried, Outcome;
    tracker := new AddrTracker();
    var slice := Slice(Remaining(deadline, start, budget), |addrs|);
    var now := start;
    Beginning(addrs, answers, slice, start, deadline);
    var i := 0;
    while i < |addrs|
      invariant 0 <= i <= |addrs| && fresh(tracker) && tracker.Valid()
      invariant now == StartOf(answers, slice, start, deadline, i)
      invariant tracker.outcomes == Recorded(addrs, answers, slice, start, deadline, i)
      invariant forall j :: 0 <= j < i ==> !Ends(answers[j])
    {
      tracker.Pin(addrs[i]);
      var took := Took(answers[i], slice, now, deadline);
      assert addrs[i] in addrs;
      RecordStep(addrs, answers, slice, start, deadline, i);
      var o := Outcome(addrs[i], answers[i], took);
      assert o.ip == addrs[i] by { OutcomeIP(addrs[i], answers[i], took); }
      tracker.Record(o);
      NextStart(answers, slice, start, deadline, i);
      now := now + took;
      if Ends(answers[i]) {
        StopsAt(answers, i);
        return tracker, answers[i].Responded?;
      }
      i := i + 1;
    }
    NeverEnds(answers);
    passed := false;
  }

  lemma Beginning(addrs: seq<string>, answers: seq<Answer>, slice: int, start: int, deadline: Option<int>)
    requires |addrs| == |answers|
    ensures StartOf(answers, slice, start, deadline, 0) == start
    ensures Recorded(addrs, answers, slice, start, deadline, 0) == []
  {
  }

  lemma OutcomeIP(ip: string, a: Answer, took: int)
    ensures Outcome(ip, a, took).ip == ip
  {
  }

  lemma RecordStep(addrs: seq<string>, answers: seq<Answer>, slice: int, start: int, deadline: Option<int>, i: nat)
    requires i < |addrs| == |answers| && Distinct(addrs)
    ensures var r := Recorded(addrs, answers, slice, start, deadline, i);
            && Recorded(addrs, answers, slice, start, deadline, i + 1)
               == r + [Outcome(addrs[i], answers[i], Took(answers[i], slice, StartOf(answers, slice, start, deadline, i), deadline))]
            && forall p :: p in r ==> p.ip != addrs[i]
  {
    hide Took, StartOf;
  }

  lemma NextStart(answers: seq<Answer>, slice: int, start: int, deadline: Option<int>, i: nat)
    requires i < |answers|
    ensures StartOf(answers, slice, start, deadline, i + 1)
            == StartOf(answers, slice, start, deadline, i)
               + Took(answers[i], slice, StartOf(answers, slice, start, deadline, i), deadline)
  {
  }

  lemma StopsAt(answers: seq<Answer>, i: nat)
    requires i < |answers| && Ends(answers[i]) && forall j :: 0 <= j < i ==> !Ends(answers[j])
    ensures Tried(answers) == i + 1
  {
    TriedMeaning(answers);
    var n := Tried(answers);
    if n < |answers| { assert Ends(answers[n - 1]); }
  }

  lemma NeverEnds(answers: seq<Answer>)
    requires forall j :: 0 <= j < |answers| ==> !Ends(answers[j])
    ensures Tried(answers) == |answers|
  {
    TriedMeaning(answers);
  }

  /** The recorded addresses are a prefix of the resolved ones without repetition. When no
      prerequisite fails, all but the last entry did not pass, and the loop stopped early only
      because the last one did. */
  lemma RecordedIsPrefix(addrs: seq<string>, answers: seq<Answer>, slice: int, start: int, deadline: Option<int>)
    requires |addrs| == |answers| && Distinct(addrs)
    requires forall i :: 0 <= i < |answers| && answers[i].Failed? ==> answers[i].status != Pass && !answers[i].prereq
    ensures var n := Tried(answers);
            && n <= |addrs|
            && var r := Recorded(addrs, answers, slice, start, deadline, n);
               && (forall i :: 0 <= i < |r| ==> r[i].ip == addrs[i])
               && (forall i, j :: 0 <= i < j < |r| ==> r[i].ip != r[j].ip)
               && (forall i :: 0 <= i < |r| - 1 ==> r[i].status != Pass)
               && (|r| < |addrs| ==> |r| > 0 && r[|r| - 1].status == Pass)
               && (forall i :: 0 <= i < |addrs| && answers[i].Responded? ==> exists k :: 0 <= k < |r| && r[k].status == Pass)
  {
    hide Took, StartOf;
    TriedMeaning(answers);
    var n := Tried(answers);
    var r := Recorded(addrs, answers, slice, start, deadline, n);
    forall i | 0 <= i < |addrs| && answers[i].Responded? ensures exists k :: 0 <= k < |r| && r[k].status == Pass {
      assert i >= n - 1;
      assert Ends(answers[i]);
      if i >= n { assert r[n - 1].status == Pass; } else { assert r[i].status == Pass; }
    }
  }

  /** An address is tried exactly when no earlier one responded or failed its prerequisite, and the entry
      recorded for it is its own answer: a pass when it responded, else its failure. */
  lemma RecordedAnswers(addrs: seq<string>, answers: seq<Answer>, slice: int, start: int, deadline: Option<int>, i: nat)
    requires |addrs| == |answers| && i < |addrs|
    ensures Tried(answers) <= |addrs|
    ensures i < Tried(answers) <==> forall j :: 0 <= j < i ==> answers[j].Failed? && !answers[j].prereq
    ensures i < Tried(answers) ==>
              var o := Recorded(addrs, answers, slice, start, deadline, Tried(answers))[i];
              && o.ip == addrs[i]
              && (o.status, o.kind, o.error) == (match answers[i] case Responded(_) => (Pass, "", "")
                                                 case Failed(status, kind, error, _, _) => (status, kind, error))
              && o.duration == StartOf(answers, slice, start, deadline, i + 1) - StartOf(answers, slice, start, deadline, i)
  {
    hide Took;
    TriedMeaning(answers);
    NextStart(answers, slice, start, deadline, i);
  }

  // ---------------------------------------------------------------------------------------
  // Time

  /** An attempt lasts as long as its request stalls, but not longer than its slice nor past the
      deadline. */
  lemma AttemptLasts(a: Answer, slice: int, now: int, deadline: Option<int>)
    requires slice >= 0
    ensures var t := Took(a, slice, now, deadline);
            && 0 <= t <= a.stall && t <= slice
            && (deadline.Some? ==> t == 0 || now + t <= deadline.value)
            && (t == a.stall || t == slice || (deadline.Some? && (now + t == deadline.value || (t == 0 && deadline.value < now))))
  {
  }

  /** The time left at the start, the layer's budget without a deadline, is shared out evenly, unless
      that gives less than a hundred milliseconds each. */
  lemma SlicesShare(deadline: Option<int>, start: int, budget: int, n: nat)
    requires n > 0 && budget > 0
    ensures var left := if deadline.Some? then deadline.value - start else budget;
            var slice := Slice(Remaining(deadline, start, budget), n);
            if left < 100_000_000 * n then slice == 100_000_000 else slice * n <= left < slice * n + n
  {
    var remaining := Remaining(deadline, start, budget);
    assert remaining == n * (remaining / n) + remaining % n;
    var q := remaining / n;
    if q < MIN_SLICE {
      Ordered(q + 1, MIN_SLICE, n);
      assert remaining < MIN_SLICE * n;
    } else {
      Ordered(MIN_SLICE, q, n);
      assert remaining >= MIN_SLICE * n;
    }
  }

  /** Attempt `i` can use its whole slice before the deadline. */
  predicate FullSlice(answers: seq<Answer>, slice: int, start: int, deadline: int, i: nat)
    requires i < |answers|
  {
    StartOf(answers, slice, start, Some(deadline), i) + slice <= deadline
  }

  lemma {:induction false} StartBound(answers: seq<Answer>, slice: int, start: int, deadline: Option<int>, i: nat)
    requires i <= |answers| && slice >= 0
    ensures start <= StartOf(answers, slice, start, deadline, i) <= start + i * slice
  {
    if i > 0 {
      StartBound(answers, slice, start, deadline, i - 1);
      assert (i - 1) * slice + slice == i * slice;
    }
  }

  /** However long earlier addresses stall, every address gets its full slice, exactly when the
      budget left at the start is at least a hundred milliseconds for each address. */
  lemma SlicesFitIff(start: int, deadline: int, n: nat)
    requires n > 0
    ensures var slice := Slice(Remaining(Some(deadline), start, 0), n);
            (forall answers: seq<Answer>, i: nat :: |answers| == n && i < n ==> FullSlice(answers, slice, start, deadline, i))
            <==> deadline - start >= MIN_SLICE * n
  {
    hide StartOf;
    var remaining := Remaining(Some(deadline), start, 0);
    var slice := Slice(remaining, n);
    if deadline - start >= MIN_SLICE * n {
      Divides(remaining, n);
      forall answers: seq<Answer>, i: nat | |answers| == n && i < n ensures FullSlice(answers, slice, start, deadline, i) {
        StartBound(answers, slice, start, Some(deadline), i);
        assert i * slice + slice == (i + 1) * slice <= n * slice by { Ordered(i + 1, n, slice); }
      }
    } else {
      var answers := seq(n, _ => Failed(Timeout, "timeout", "timed out", slice, false));
      if FullSlice(answers, slice, start, deadline, n - 1) {
        AllStall(answers, slice, start, deadline, n - 1);
        assert (n - 1) * slice + slice == n * slice;
        Exceeds(remaining, n);
      }
      assert !FullSlice(answers, slice, start, deadline, n - 1);
    }
  }

  lemma Divides(remaining: int, n: nat)
    requires n > 0 && remaining >= MIN_SLICE * n
    ensures Slice(remaining, n) == remaining / n && n * Slice(remaining, n) <= remaining
  {
    var q := remaining / n;
    assert remaining == n * q + remaining % n;
    if q < MIN_SLICE { Ordered(q + 1, MIN_SLICE, n); }
  }

  lemma Exceeds(remaining: int, n: nat)
    requires n > 0 && 0 < remaining < MIN_SLICE * n
    ensures n * Slice(remaining, n) > remaining
  {
    var s := Slice(remaining, n);
    assert s >= MIN_SLICE;
    Ordered(MIN_SLICE, s, n);
  }

  lemma Ordered(a: int, b: int, c: int)
    requires a <= b && c >= 0
    ensures a * c <= b * c
  {
  }

  /** While everything stalls and fits, each attempt starts one slice after the one before. */
  lemma {:induction false} AllStall(answers: seq<Answer>, slice: int, start: int, deadline: int, i: nat)
    requires i < |answers| && slice > 0 && FullSlice(answers, slice, start, deadline, i)
    requires forall j :: 0 <= j < |answers| ==> answers[j].stall == slice
    ensures StartOf(answers, slice, start, Some(deadline), i) == start + i * slice
  {
    if i > 0 {
      NextStart(answers, slice, start, Some(deadline), i - 1);
      AllStall(answers, slice, start, deadline, i - 1);
      assert (i - 1) * slice + slice == i * slice;
    }
  }
}
