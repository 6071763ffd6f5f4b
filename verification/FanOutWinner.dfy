/** Which connection wins: by arrival when dialing, by resolver order after TLS handshakes. */
module FanOutWinner {
  import opened Model
  import opened Sorting
  import opened Addresses
  import opened FanOut

  // ---------------------------------------------------------------------------------------
  // Dialing: the winner depends on the schedule

  /** Nothing is in flight: every worker is idle, or ended with its answer received. */
  ghost predicate Quiet(all: seq<AddressOutcome>, f: Fan) {
    && |f.workers| == |f.answers| == |f.closes| == |all|
    && f.queue == [] && !f.closed && f.collector == Collecting
    && (forall i :: 0 <= i < |all| ==>
          (i in f.received <==> f.workers[i] == Ended)
          && (i !in f.received <==> f.workers[i] == Idle)
          && (i in f.received ==> f.answers[i] == Some(all[i])))
  }

  lemma Extend(mode: Mode, addrs: seq<string>, trace: seq<Action>, f: Fan, a: Action)
    requires Reached(mode, addrs, trace, f) && Enabled(addrs, f, a)
    ensures Reached(mode, addrs, trace + [a], Apply(mode, addrs, f, a))
  {
    hide Enabled, Apply;
    assert (trace + [a])[..|trace|] == trace;
  }

  ghost predicate About(addrs: seq<string>, all: seq<AddressOutcome>) {
    |all| == |addrs| && forall i :: 0 <= i < |addrs| ==> all[i].ip == addrs[i]
  }

  /** One address can be dialed, delivered and received before any other moves. */
  lemma ServeOne(addrs: seq<string>, all: seq<AddressOutcome>, trace: seq<Action>, f: Fan, i: nat)
    returns (longer: seq<Action>, g: Fan)
    requires About(addrs, all) && Reached(WaitAll, addrs, trace, f) && Quiet(all, f)
    requires i < |all| && i !in f.received
    ensures Reached(WaitAll, addrs, longer, g) && Quiet(all, g) && g.received == f.received + [i]
  {
    hide Reached, Apply, Enabled, Quiet, Sum;
    var a, b, c := CanDeliver(addrs, all, f, i);
    Extend(WaitAll, addrs, trace, f, Acquire(i));
    Extend(WaitAll, addrs, trace + [Acquire(i)], a, Dial(i, all[i]));
    var t := trace + [Acquire(i)] + [Dial(i, all[i])];
    Extend(WaitAll, addrs, t, b, Send(i));
    t := t + [Send(i)];
    var d := CanReceive(addrs, all, f, c, i);
    Extend(WaitAll, addrs, t, c, Release(i));
    t := t + [Release(i)];
    Extend(WaitAll, addrs, t, d, Receive);
    longer, g := t + [Receive], Apply(WaitAll, addrs, d, Receive);
  }

  lemma CanDeliver(addrs: seq<string>, all: seq<AddressOutcome>, f: Fan, i: nat) returns (a: Fan, b: Fan, c: Fan)
    requires About(addrs, all) && Quiet(all, f) && i < |all| && i !in f.received
    ensures Enabled(addrs, f, Acquire(i)) && a == Apply(WaitAll, addrs, f, Acquire(i))
    ensures Enabled(addrs, a, Dial(i, all[i])) && b == Apply(WaitAll, addrs, a, Dial(i, all[i]))
    ensures Enabled(addrs, b, Send(i)) && c == Apply(WaitAll, addrs, b, Send(i))
    ensures c == f.(workers := f.workers[i := Sent], answers := f.answers[i := Some(all[i])], queue := [i])
  {
    hide Sum;
    assert Sum(Slots, f.workers) == 0 by { SumConstant(Slots, f.workers, 0); }
    a := Apply(WaitAll, addrs, f, Acquire(i));
    b := Apply(WaitAll, addrs, a, Dial(i, all[i]));
    c := Apply(WaitAll, addrs, b, Send(i));
    assert f.workers[i := Dialing][i := Holding][i := Sent] == f.workers[i := Sent];
  }

  lemma CanReceive(addrs: seq<string>, all: seq<AddressOutcome>, f: Fan, c: Fan, i: nat) returns (d: Fan)
    requires About(addrs, all) && Quiet(all, f) && i < |all| && i !in f.received
    requires c == f.(workers := f.workers[i := Sent], answers := f.answers[i := Some(all[i])], queue := [i])
    ensures Enabled(addrs, c, Release(i)) && d == Apply(WaitAll, addrs, c, Release(i))
    ensures Enabled(addrs, d, Receive)
    ensures Quiet(all, Apply(WaitAll, addrs, d, Receive))
    ensures Apply(WaitAll, addrs, d, Receive).received == f.received + [i]
  {
    hide Sum, Take;
    d := Apply(WaitAll, addrs, c, Release(i));
    var g := Apply(WaitAll, addrs, d, Receive);
    TakeFacts(WaitAll, d.(queue := d.queue[1..]), i);
    StillCollecting(d.(queue := d.queue[1..]), i);
    assert g.workers == f.workers[i := Ended];
  }

  lemma StillCollecting(f: Fan, i: nat)
    requires i < |f.closes| && f.collector == Collecting
    ensures Take(WaitAll, f, i).collector == Collecting && Take(WaitAll, f, i).closed == f.closed
  {
  }

  /** From a quiet state everything can be completed. */
  lemma {:induction false} ServeRest(addrs: seq<string>, all: seq<AddressOutcome>, trace: seq<Action>, f: Fan)
    returns (longer: seq<Action>, g: Fan)
    requires About(addrs, all) && Reached(WaitAll, addrs, trace, f) && Quiet(all, f)
    ensures Reached(WaitAll, addrs, longer, g) && Finished(g)
    ensures f.received <= g.received && g.answers == seq(|all|, i requires 0 <= i < |all| => Some(all[i]))
    decreases Sum(StepsLeft, f.workers)
  {
    hide Reached;
    if AllEnded(f) {
      assert forall i :: 0 <= i < |all| ==> Is(f, i, Ended);
      var h := Apply(WaitAll, addrs, f, Close);
      Extend(WaitAll, addrs, trace, f, Close);
      g := Apply(WaitAll, addrs, h, Stop);
      Extend(WaitAll, addrs, trace + [Close], h, Stop);
      longer := trace + [Close] + [Stop];
      assert forall i :: Is(g, i, Ended) == Is(f, i, Ended);
      forall i | 0 <= i < |all| ensures g.answers[i] == Some(all[i]) { assert Is(f, i, Ended); }
    } else {
      var i :| 0 <= i < |f.workers| && !Is(f, i, Ended);
      var t, h := ServeOne(addrs, all, trace, f, i);
      StepsFall(all, f, h, i);
      longer, g := ServeRest(addrs, all, t, h);
    }
  }

  lemma StepsFall(all: seq<AddressOutcome>, f: Fan, g: Fan, i: nat)
    requires Quiet(all, f) && Quiet(all, g) && i < |all| && i !in f.received && g.received == f.received + [i]
    ensures Sum(StepsLeft, g.workers) < Sum(StepsLeft, f.workers)
  {
    assert g.workers == f.workers[i := Ended];
    SumUpdate(StepsLeft, f.workers, i, Ended);
  }

  /** Any address that connects can win: some schedule receives it first. */
  lemma AnyoneCanWin(addrs: seq<string>, all: seq<AddressOutcome>, j: nat)
    returns (trace: seq<Action>, f: Fan)
    requires About(addrs, all) && j < |all| && all[j].status == Pass
    ensures Reached(WaitAll, addrs, trace, f) && Finished(f) && f.winner == Some(j)
    ensures |f.answers| == |addrs| && Answers(addrs, f) == all
  {
    hide Reached;
    var start := Initial(|addrs|);
    assert Reached(WaitAll, addrs, [], start) by { Start(addrs); }
    var t, g := ServeOne(addrs, all, [], start, j);
    trace, f := ServeRest(addrs, all, t, g);
    Completed(WaitAll, addrs, trace, f);
    assert f.outcomes[0] == f.received[0] == j && Opened(f, j);
  }

  lemma Start(addrs: seq<string>)
    ensures Reached(WaitAll, addrs, [], Initial(|addrs|))
  {
  }

  ghost predicate FirstPass(all: seq<AddressOutcome>, i: nat) {
    i < |all| && all[i].status == Pass && forall j :: 0 <= j < i ==> all[j].status != Pass
  }

  ghost predicate Outcome(addrs: seq<string>, all: seq<AddressOutcome>, f: Fan) {
    && (exists trace :: Reached(WaitAll, addrs, trace, f))
    && Finished(f) && |f.answers| == |addrs| && Answers(addrs, f) == all
  }

  /** The dialed connection that is returned need not be the first in resolver order. For given
      answers, every schedule returns the first in resolver order exactly when at most one
      address connects. */
  lemma WinnerIsResolverFirstIff(addrs: seq<string>, all: seq<AddressOutcome>)
    requires About(addrs, all)
    ensures (forall f :: Outcome(addrs, all, f) && f.winner.Some? ==> FirstPass(all, f.winner.value))
            <==> (forall i, j :: 0 <= i < j < |all| ==> all[i].status != Pass || all[j].status != Pass)
  {
    hide Reached, Finished;
    if i, j :| 0 <= i < j < |all| && all[i].status == Pass && all[j].status == Pass {
      var trace, f := AnyoneCanWin(addrs, all, j);
      assert Outcome(addrs, all, f) && f.winner.value == j;
      assert !FirstPass(all, j);
    } else {
      forall f | Outcome(addrs, all, f) && f.winner.Some? ensures FirstPass(all, f.winner.value) {
        var trace :| Reached(WaitAll, addrs, trace, f);
        Completed(WaitAll, addrs, trace, f);
        var k := f.winner.value;
        assert Opened(f, k) && Answers(addrs, f)[k] == f.answers[k].value;
      }
    }
  }

  // ---------------------------------------------------------------------------------------
  // TLS: the winner is resolver-first

  /** The answers by address, as the collector's map holds them after receiving `arrived`. */
  function ByIP(arrived: seq<AddressOutcome>): map<string, AddressOutcome> {
    if |arrived| == 0 then map[]
    else ByIP(arrived[..|arrived| - 1])[arrived[|arrived| - 1].ip := arrived[|arrived| - 1]]
  }

  /** The answers on record, in resolver order. */
  function Listed(addrs: seq<string>, byIP: map<string, AddressOutcome>): seq<AddressOutcome> {
    if |addrs| == 0 then []
    else
      var n := |addrs| - 1;
      Listed(addrs[..n], byIP) + if addrs[n] in byIP then [byIP[addrs[n]]] else []
  }

  predicate Handshook(addrs: seq<string>, byIP: map<string, AddressOutcome>, i: nat) {
    i < |addrs| && addrs[i] in byIP && byIP[addrs[i]].status == Pass
  }

  predicate Failed(addrs: seq<string>, byIP: map<string, AddressOutcome>, i: nat) {
    i < |addrs| && addrs[i] in byIP && byIP[addrs[i]].status != Pass
  }

  /** The judging loop: the winner is the resolver-first handshake, every other connection is
      closed exactly once, and the representative failure is the resolver-first one. */
  method JudgeTLS(addrs: seq<string>, byIP: map<string, AddressOutcome>)
    returns (winner: Option<nat>, outcomes: seq<AddressOutcome>, representative: Option<nat>, closes: array<nat>)
    ensures outcomes == Listed(addrs, byIP)
    ensures match winner
            case None => forall i :: 0 <= i < |addrs| ==> !Handshook(addrs, byIP, i)
            case Some(k) => Handshook(addrs, byIP, k) && forall i :: 0 <= i < k ==> !Handshook(addrs, byIP, i)
    ensures match representative
            case None => forall i :: 0 <= i < |addrs| ==> !Failed(addrs, byIP, i)
            case Some(k) => Failed(addrs, byIP, k) && forall i :: 0 <= i < k ==> !Failed(addrs, byIP, i)
    ensures closes.Length == |addrs|
    ensures forall i :: 0 <= i < |addrs| ==>
              closes[i] == if Handshook(addrs, byIP, i) && winner != Some(i) then 1 else 0
  {
    winner, outcomes, representative := None, [], None;
    closes := new nat[|addrs|](_ => 0);
    for i := 0 to |addrs|
      invariant outcomes == Listed(addrs[..i], byIP)
      invariant match winner
                case None => forall j :: 0 <= j < i ==> !Handshook(addrs, byIP, j)
                case Some(k) => k < i && Handshook(addrs, byIP, k) && forall j :: 0 <= j < k ==> !Handshook(addrs, byIP, j)
      invariant match representative
                case None => forall j :: 0 <= j < i ==> !Failed(addrs, byIP, j)
                case Some(k) => k < i && Failed(addrs, byIP, k) && forall j :: 0 <= j < k ==> !Failed(addrs, byIP, j)
      invariant forall j :: 0 <= j < |addrs| ==>
                  closes[j] == if j < i && Handshook(addrs, byIP, j) && winner != Some(j) then 1 else 0
    {
      assert addrs[..i + 1][..i] == addrs[..i];
      if addrs[i] in byIP {
        var a := byIP[addrs[i]];
        if a.status != Pass {
          if representative.None? { representative := Some(i); }
        } else if winner.None? {
          winner := Some(i);
        } else {
          closes[i] := closes[i] + 1;
        }
        outcomes := outcomes + [a];
      }
    }
    assert addrs[..|addrs|] == addrs;
  }

  lemma {:induction false} ByIPLookup(arrived: seq<AddressOutcome>)
    requires forall j, k :: 0 <= j < k < |arrived| ==> arrived[j].ip != arrived[k].ip
    ensures forall k :: 0 <= k < |arrived| ==>
              arrived[k].ip in ByIP(arrived) && ByIP(arrived)[arrived[k].ip] == arrived[k]
  {
    if |arrived| > 0 { ByIPLookup(arrived[..|arrived| - 1]); }
  }

  lemma {:induction false} ListedIs(addrs: seq<string>, byIP: map<string, AddressOutcome>, all: seq<AddressOutcome>)
    requires |all| == |addrs| && forall i :: 0 <= i < |addrs| ==> addrs[i] in byIP && byIP[addrs[i]] == all[i]
    ensures Listed(addrs, byIP) == all
  {
    if |addrs| > 0 {
      var n := |addrs| - 1;
      ListedIs(addrs[..n], byIP, all[..n]);
      assert all == all[..n] + [all[n]];
    }
  }

  /** In every complete interleaving the collector's map holds each address's own answer, so
      the list of outcomes, the winner and the representative failure that JudgeTLS derives
      from it do not depend on the schedule. */
  lemma TLSVerdictIgnoresSchedule(addrs: seq<string>, trace: seq<Action>, f: Fan)
    requires Reached(CollectAll, addrs, trace, f) && Finished(f) && Distinct(addrs)
    ensures |f.answers| == |addrs| && forall k :: 0 <= k < |f.outcomes| ==> f.outcomes[k] < |addrs|
    ensures var byIP := ByIP(At(Answers(addrs, f), f.outcomes));
            && (forall i :: 0 <= i < |addrs| ==> addrs[i] in byIP && byIP[addrs[i]] == Answers(addrs, f)[i])
            && (forall i :: 0 <= i < |addrs| ==> (Handshook(addrs, byIP, i) <==> Opened(f, i)))
            && Listed(addrs, byIP) == Answers(addrs, f)
  {
    hide Reached, Finished;
    Completed(CollectAll, addrs, trace, f);
    ReachedIsGood(CollectAll, addrs, trace, f);
    OutcomesAreDistinct(CollectAll, addrs, f);
    var all := Answers(addrs, f);
    var arrived := At(all, f.outcomes);
    forall j, k | 0 <= j < k < |arrived| ensures arrived[j].ip != arrived[k].ip {
      assert f.outcomes[j] != f.outcomes[k];
      assert arrived[j].ip == addrs[f.outcomes[j]] && arrived[k].ip == addrs[f.outcomes[k]];
    }
    ByIPLookup(arrived);
    forall i | 0 <= i < |addrs| ensures addrs[i] in ByIP(arrived) && ByIP(arrived)[addrs[i]] == all[i] {
      assert i in f.received;
      var k :| 0 <= k < |f.outcomes| && f.outcomes[k] == i;
      assert arrived[k] == all[i];
    }
    ListedIs(addrs, ByIP(arrived), all);
  }
}
