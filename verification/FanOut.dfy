/** Dialing every address of a name at once: one worker an address, a semaphore, a buffered
    channel, a closer, and a collector that waits for all answers or stops at the first
    connection. Every interleaving is a sequence of actions. */
module FanOut {
  import opened Model
  import opened Sorting
  import opened Addresses

  const ATTEMPT_LIMIT := 4

  /** What a worker still has to do: take a slot, dial, send its answer, give the slot back. */
  datatype Phase = Idle | Dialing | Holding | Sent | Ended

  /** WaitAll and FirstWins keep one connection and close the others on arrival; CollectAll only
      gathers the answers, for the TLS handshakes that are judged afterwards. */
  datatype Mode = WaitAll | FirstWins | CollectAll

  /** After the first connection, FirstWins leaves the channel to a drainer. */
  datatype Collector = Collecting | Draining | Stopped

  /** Workers and addresses share their index. `closes` counts how often the connection of an
      address was closed; `outcomes` are the addresses the collector has recorded, in order of
      arrival, and `received` also counts what the drainer took. */
  datatype Fan = Fan(workers: seq<Phase>, answers: seq<Option<AddressOutcome>>, queue: seq<nat>,
                     received: seq<nat>, outcomes: seq<nat>, winner: Option<nat>, closes: seq<nat>,
                     closed: bool, collector: Collector)

  datatype Action = Acquire(i: nat) | Dial(i: nat, o: AddressOutcome) | Send(i: nat) | Release(i: nat)
                  | Close | Receive | Stop

  function Initial(n: nat): Fan {
    Fan(seq(n, _ => Idle), seq(n, _ => None), [], [], [], None, seq(n, _ => 0), false, Collecting)
  }

  /** A dial that did not fail opened a connection. */
  predicate Opened(f: Fan, i: nat) {
    i < |f.answers| && f.answers[i].Some? && f.answers[i].value.status == Pass
  }

  function Slots(p: Phase): nat { if p == Dialing || p == Holding || p == Sent then 1 else 0 }

  function StepsLeft(p: Phase): nat {
    match p case Idle => 4 case Dialing => 3 case Holding => 2 case Sent => 1 case Ended => 0
  }

  function Sum(w: Phase -> nat, ps: seq<Phase>): nat {
    if |ps| == 0 then 0 else Sum(w, ps[..|ps| - 1]) + w(ps[|ps| - 1])
  }

  predicate Is(f: Fan, i: nat, p: Phase) { i < |f.workers| && f.workers[i] == p }

  predicate AllEnded(f: Fan) { forall i :: 0 <= i < |f.workers| ==> Is(f, i, Ended) }

  predicate Enabled(addrs: seq<string>, f: Fan, a: Action) {
    match a
    case Acquire(i) => Is(f, i, Idle) && Sum(Slots, f.workers) < ATTEMPT_LIMIT
    case Dial(i, o) => Is(f, i, Dialing) && i < |addrs| && i < |f.answers| && o.ip == addrs[i]
    case Send(i) => Is(f, i, Holding) && |f.queue| < |addrs|
    case Release(i) => Is(f, i, Sent)
    case Close => AllEnded(f) && !f.closed
    case Receive => f.collector != Stopped && |f.queue| > 0 && f.queue[0] < |f.closes|
    case Stop => f.collector != Stopped && f.closed && f.queue == []
  }

  function Apply(mode: Mode, addrs: seq<string>, f: Fan, a: Action): Fan
    requires Enabled(addrs, f, a)
  {
    match a
    case Acquire(i) => f.(workers := f.workers[i := Dialing])
    case Dial(i, o) => f.(workers := f.workers[i := Holding], answers := f.answers[i := Some(o)])
    case Send(i) => f.(workers := f.workers[i := Sent], queue := f.queue + [i])
    case Release(i) => f.(workers := f.workers[i := Ended])
    case Close => f.(closed := true)
    case Receive => Take(mode, f.(queue := f.queue[1..]), f.queue[0])
    case Stop => f.(collector := Stopped)
  }

  /** Taking one answer off the channel. */
  function Take(mode: Mode, f: Fan, i: nat): Fan
    requires i < |f.closes|
  {
    var g := f.(received := f.received + [i]);
    if f.collector == Draining then
      if Opened(f, i) then g.(closes := f.closes[i := f.closes[i] + 1]) else g
    else
      var h := g.(outcomes := f.outcomes + [i]);
      if !Opened(f, i) || mode == CollectAll then h
      else
        var k := if f.winner.None? then h.(winner := Some(i)) else h.(closes := f.closes[i := f.closes[i] + 1]);
        if mode == FirstWins then k.(collector := Draining) else k
  }

  ghost predicate Reached(mode: Mode, addrs: seq<string>, trace: seq<Action>, f: Fan) {
    if |trace| == 0 then f == Initial(|addrs|)
    else
      var n := |trace| - 1;
      exists before :: Reached(mode, addrs, trace[..n], before)
        && Enabled(addrs, before, trace[n]) && f == Apply(mode, addrs, before, trace[n])
  }

  /** Nothing is left to do: the collector and the drainer are gone and every worker ended. */
  predicate Finished(f: Fan) { f.collector == Stopped && AllEnded(f) }

  // ---------------------------------------------------------------------------------------
  // The invariant

  ghost predicate Sized(addrs: seq<string>, f: Fan) {
    |f.workers| == |f.answers| == |f.closes| == |addrs|
  }

  /** A worker has its answer once it dialed, and the answer is about its address. */
  ghost predicate Answered(addrs: seq<string>, f: Fan)
    requires Sized(addrs, f)
  {
    forall i :: 0 <= i < |addrs| ==>
      (f.answers[i].Some? <==> f.workers[i] in {Holding, Sent, Ended})
      && (f.answers[i].Some? ==> f.answers[i].value.ip == addrs[i])
  }

  /** Exactly the answers that were sent are in the channel or were received, each once. */
  ghost predicate Delivered(addrs: seq<string>, f: Fan)
    requires Sized(addrs, f)
  {
    && Distinct(f.received + f.queue)
    && (forall i :: i in f.received + f.queue ==> i < |addrs|)
    && forall i :: 0 <= i < |addrs| ==> (i in f.received + f.queue <==> f.workers[i] in {Sent, Ended})
  }

  /** A connection was closed once if it was received and is not the winner, else never. */
  ghost predicate Accounted(mode: Mode, addrs: seq<string>, f: Fan)
    requires Sized(addrs, f)
  {
    forall i :: 0 <= i < |addrs| ==>
      f.closes[i] == if mode != CollectAll && i in f.received && Opened(f, i) && f.winner != Some(i) then 1 else 0
  }

  ghost predicate NoneBefore(f: Fan, k: nat) {
    forall j :: 0 <= j < k && j < |f.outcomes| ==> !Opened(f, f.outcomes[j])
  }

  /** The winner is the first connection to arrive among the recorded outcomes. */
  ghost predicate WinnerIsFirst(mode: Mode, f: Fan) {
    && f.outcomes <= f.received
    && (mode == CollectAll ==> f.winner.None?)
    && (mode != CollectAll ==>
        match f.winner
        case None => forall k :: 0 <= k < |f.outcomes| ==> !Opened(f, f.outcomes[k])
        case Some(i) =>
          && Opened(f, i)
          && exists k :: 0 <= k < |f.outcomes| && f.outcomes[k] == i && NoneBefore(f, k))
  }

  /** Who collects: everything received was recorded, unless FirstWins has a winner; then the
      records end with it. */
  ghost predicate Phased(mode: Mode, f: Fan) {
    && (f.collector == Draining ==> mode == FirstWins)
    && (f.outcomes != f.received ==> mode == FirstWins)
    && (mode == FirstWins ==>
        if f.winner.Some?
        then f.collector != Collecting && |f.outcomes| > 0 && f.outcomes[|f.outcomes| - 1] == f.winner.value
        else f.collector != Draining && f.outcomes == f.received)
    && (f.closed ==> AllEnded(f))
    && (f.collector == Stopped ==> f.closed && f.queue == [])
  }

  ghost predicate Good(mode: Mode, addrs: seq<string>, f: Fan) {
    && Sized(addrs, f) && Answered(addrs, f) && Delivered(addrs, f)
    && Accounted(mode, addrs, f) && WinnerIsFirst(mode, f) && Phased(mode, f)
    && Sum(Slots, f.workers) <= ATTEMPT_LIMIT
  }

  lemma {:induction false} SumUpdate(w: Phase -> nat, ps: seq<Phase>, i: nat, p: Phase)
    requires i < |ps|
    ensures Sum(w, ps[i := p]) == Sum(w, ps) - w(ps[i]) + w(p)
  {
    var n := |ps| - 1;
    if i < n {
      SumUpdate(w, ps[..n], i, p);
      assert ps[i := p][..n] == ps[..n][i := p];
    } else {
      assert ps[i := p][..n] == ps[..n];
    }
  }

  lemma {:induction false} SumConstant(w: Phase -> nat, ps: seq<Phase>, c: nat)
    requires forall i :: 0 <= i < |ps| ==> w(ps[i]) == c
    ensures Sum(w, ps) == |ps| * c
  {
    if |ps| > 0 { SumConstant(w, ps[..|ps| - 1], c); }
  }

  lemma InitialIsGood(mode: Mode, addrs: seq<string>)
    ensures Good(mode, addrs, Initial(|addrs|))
  {
    SumConstant(Slots, Initial(|addrs|).workers, 0);
  }

  lemma WorkerStepIsGood(mode: Mode, addrs: seq<string>, f: Fan, a: Action)
    requires Good(mode, addrs, f) && Enabled(addrs, f, a)
    requires a.Acquire? || a.Dial? || a.Release?
    ensures Good(mode, addrs, Apply(mode, addrs, f, a))
  {
    hide Sum, WinnerIsFirst;
    var g := Apply(mode, addrs, f, a);
    SumUpdate(Slots, f.workers, a.i, g.workers[a.i]);
    assert a.Dial? ==> a.i !in f.received + f.queue;
    assert f.closed ==> Is(f, a.i, Ended);
    OpenedElsewhere(mode, f, g, a.i);
  }

  /** An answer that was not received yet changes nothing about the winner. */
  lemma OpenedElsewhere(mode: Mode, f: Fan, g: Fan, i: nat)
    requires WinnerIsFirst(mode, f)
    requires g.outcomes == f.outcomes && g.received == f.received && g.winner == f.winner
    requires i in f.received ==> g.answers == f.answers
    requires |g.answers| == |f.answers| && forall j :: 0 <= j < |f.answers| && j != i ==> g.answers[j] == f.answers[j]
    ensures WinnerIsFirst(mode, g)
  {
    forall k | 0 <= k < |f.outcomes| ensures Opened(g, f.outcomes[k]) == Opened(f, f.outcomes[k]) {
      assert f.outcomes[k] == f.received[k];
    }
  }

  lemma SendIsGood(mode: Mode, addrs: seq<string>, f: Fan, a: Action)
    requires Good(mode, addrs, f) && Enabled(addrs, f, a) && a.Send?
    ensures Good(mode, addrs, Apply(mode, addrs, f, a))
  {
    hide Sum, WinnerIsFirst;
    var g := Apply(mode, addrs, f, a);
    SumUpdate(Slots, f.workers, a.i, Sent);
    assert g.received + g.queue == (f.received + f.queue) + [a.i];
    assert f.closed ==> Is(f, a.i, Ended);
    OpenedElsewhere(mode, f, g, a.i);
  }

  lemma ReceiveIsGood(mode: Mode, addrs: seq<string>, f: Fan)
    requires Good(mode, addrs, f) && Enabled(addrs, f, Receive)
    ensures Good(mode, addrs, Apply(mode, addrs, f, Receive))
  {
    hide Sum, WinnerIsFirst, Accounted, Phased, Delivered, Answered, Take;
    var g := Apply(mode, addrs, f, Receive);
    var i := f.queue[0];
    TakeFacts(mode, f.(queue := f.queue[1..]), i);
    ReceiveDelivers(addrs, f, g);
    if f.winner.Some? { WinnerWasReceived(mode, f); }
    ReceiveAccounts(mode, addrs, f, g);
    ReceivePhases(mode, f, g);
    TakenWinner(mode, f, g, i);
    assert Answered(addrs, g) by { AnsweredSame(addrs, f, g); }
  }

  lemma TakeFacts(mode: Mode, f: Fan, i: nat)
    requires i < |f.closes|
    ensures var g := Take(mode, f, i);
            && g.workers == f.workers && g.answers == f.answers && g.queue == f.queue
            && g.received == f.received + [i] && |g.closes| == |f.closes|
  {
  }

  lemma AnsweredSame(addrs: seq<string>, f: Fan, g: Fan)
    requires Sized(addrs, f) && Sized(addrs, g) && g.workers == f.workers && g.answers == f.answers
    ensures Answered(addrs, g) == Answered(addrs, f)
  {
  }

  lemma ReceiveDelivers(addrs: seq<string>, f: Fan, g: Fan)
    requires Sized(addrs, f) && Sized(addrs, g) && Delivered(addrs, f) && |f.queue| > 0
    requires g.queue == f.queue[1..] && g.received == f.received + [f.queue[0]] && g.workers == f.workers
    ensures Delivered(addrs, g) && f.queue[0] !in f.received
  {
    assert g.received + g.queue == f.received + f.queue;
    var all := f.received + f.queue;
    forall k | 0 <= k < |f.received| ensures f.received[k] != f.queue[0] {
      assert all[k] != all[|f.received|];
    }
  }

  lemma ReceiveAccounts(mode: Mode, addrs: seq<string>, f: Fan, g: Fan)
    requires Sized(addrs, f) && Accounted(mode, addrs, f) && Phased(mode, f) && WinnerIsFirst(mode, f)
    requires |f.queue| > 0 && f.queue[0] < |f.closes| && f.collector != Stopped
    requires g == Take(mode, f.(queue := f.queue[1..]), f.queue[0]) && Sized(addrs, g)
    requires f.queue[0] !in f.received
    requires f.winner.Some? ==> f.winner.value in f.received
    ensures Accounted(mode, addrs, g)
  {
    hide Sum, NoneBefore;
    var i := f.queue[0];
    assert f.winner.Some? || mode == CollectAll || f.collector == Collecting;
    TakeCloses(mode, f.(queue := f.queue[1..]), i);
    TakeFacts(mode, f.(queue := f.queue[1..]), i);
    assert f.closes[i] == 0;
    forall j | 0 <= j < |addrs|
      ensures g.closes[j] == if mode != CollectAll && j in g.received && Opened(g, j) && g.winner != Some(j) then 1 else 0
    {
      assert Opened(g, j) == Opened(f, j);
    }
  }

  /** What taking an answer does to the winner and to the connections. */
  lemma TakeCloses(mode: Mode, f: Fan, i: nat)
    requires i < |f.closes| && f.collector != Stopped
    requires f.winner.Some? || mode == CollectAll || f.collector == Collecting
    requires f.collector == Draining ==> mode != CollectAll
    requires mode == CollectAll ==> f.winner.None?
    ensures var g := Take(mode, f, i);
            var wins := mode != CollectAll && Opened(f, i) && f.winner.None?;
            && g.winner == (if wins then Some(i) else f.winner)
            && g.closes == if mode != CollectAll && Opened(f, i) && !wins then f.closes[i := f.closes[i] + 1] else f.closes
  {
  }

  lemma ReceivePhases(mode: Mode, f: Fan, g: Fan)
    requires Phased(mode, f)
    requires |f.queue| > 0 && f.queue[0] < |f.closes| && f.collector != Stopped
    requires g == Take(mode, f.(queue := f.queue[1..]), f.queue[0])
    ensures Phased(mode, g)
  {
    assert forall j, p :: Is(g, j, p) == Is(f, j, p);
  }

  lemma WinnerWasReceived(mode: Mode, f: Fan)
    requires WinnerIsFirst(mode, f) && f.winner.Some?
    ensures f.winner.value in f.received && Opened(f, f.winner.value)
  {
    var k :| 0 <= k < |f.outcomes| && f.outcomes[k] == f.winner.value;
    assert f.received[k] == f.outcomes[k];
  }

  lemma TakenWinner(mode: Mode, f: Fan, g: Fan, i: nat)
    requires WinnerIsFirst(mode, f) && Phased(mode, f) && f.collector != Stopped && i < |f.closes|
    requires g == Take(mode, f.(queue := g.queue), i)
    requires f.winner != Some(i)
    ensures WinnerIsFirst(mode, g)
  {
    hide Sum;
    assert g.answers == f.answers && forall j :: Opened(g, j) == Opened(f, j);
    if f.winner.Some? && f.winner == g.winner && mode != CollectAll {
      var k :| 0 <= k < |f.outcomes| && f.outcomes[k] == f.winner.value && NoneBefore(f, k);
      assert g.outcomes[k] == f.winner.value && NoneBefore(g, k);
    }
    if f.winner.None? && g.winner.Some? {
      assert g.outcomes[|f.outcomes|] == i && NoneBefore(g, |f.outcomes|);
    }
  }

  lemma LateStepIsGood(mode: Mode, addrs: seq<string>, f: Fan, a: Action)
    requires Good(mode, addrs, f) && Enabled(addrs, f, a) && (a.Close? || a.Stop?)
    ensures Good(mode, addrs, Apply(mode, addrs, f, a))
  {
    hide Sum, Answered, Delivered, WinnerIsFirst, Accounted, Enabled;
    var g := Apply(mode, addrs, f, a);
    assert a.Close? ==> AllEnded(f) by { StopsOrCloses(addrs, f, a); }
    assert a.Stop? ==> f.closed && f.queue == [] by { StopsOrCloses(addrs, f, a); }
    assert AllEnded(f) ==> AllEnded(g) by { assert forall i :: Is(g, i, Ended) == Is(f, i, Ended); }
    LateStepKeeps(mode, addrs, f, g);
  }

  lemma StopsOrCloses(addrs: seq<string>, f: Fan, a: Action)
    requires Enabled(addrs, f, a)
    ensures a.Close? ==> AllEnded(f)
    ensures a.Stop? ==> f.closed && f.queue == []
  {
  }

  lemma LateStepKeeps(mode: Mode, addrs: seq<string>, f: Fan, g: Fan)
    requires Good(mode, addrs, f) && g == f.(closed := g.closed, collector := g.collector)
    ensures Answered(addrs, g) && Delivered(addrs, g) && Accounted(mode, addrs, g) && WinnerIsFirst(mode, g)
  {
    hide Sum;
    assert forall i :: Opened(g, i) == Opened(f, i);
    assert forall k :: NoneBefore(g, k) == NoneBefore(f, k);
  }

  lemma StepIsGood(mode: Mode, addrs: seq<string>, f: Fan, a: Action)
    requires Good(mode, addrs, f) && Enabled(addrs, f, a)
    ensures Good(mode, addrs, Apply(mode, addrs, f, a))
  {
    hide Good, Enabled, Apply;
    match a
    case Acquire(_) => WorkerStepIsGood(mode, addrs, f, a);
    case Dial(_, _) => WorkerStepIsGood(mode, addrs, f, a);
    case Release(_) => WorkerStepIsGood(mode, addrs, f, a);
    case Send(_) => SendIsGood(mode, addrs, f, a);
    case Receive => ReceiveIsGood(mode, addrs, f);
    case Close => LateStepIsGood(mode, addrs, f, a);
    case Stop => LateStepIsGood(mode, addrs, f, a);
  }

  // ---------------------------------------------------------------------------------------
  // Every interleaving

  function Remaining(addrs: seq<string>, f: Fan): int {
    Sum(StepsLeft, f.workers) + (if f.closed then 0 else 1) + (|addrs| - |f.received|)
    + if f.collector == Stopped then 0 else 1
  }

  lemma StepProgress(mode: Mode, addrs: seq<string>, f: Fan, a: Action)
    requires Enabled(addrs, f, a)
    ensures Remaining(addrs, Apply(mode, addrs, f, a)) == Remaining(addrs, f) - 1
  {
    hide Sum;
    if !(a.Close? || a.Receive? || a.Stop?) {
      SumUpdate(StepsLeft, f.workers, a.i, Apply(mode, addrs, f, a).workers[a.i]);
    }
  }

  /** Every interleaving keeps the invariant, and each step uses up one of 5n + 2. */
  lemma {:induction false} ReachedIsGood(mode: Mode, addrs: seq<string>, trace: seq<Action>, f: Fan)
    requires Reached(mode, addrs, trace, f)
    ensures Good(mode, addrs, f)
    ensures |trace| + Remaining(addrs, f) == 5 * |addrs| + 2
    decreases |trace|
  {
    hide Good, Enabled, Remaining, Apply;
    if |trace| == 0 {
      InitialIsGood(mode, addrs);
      SumConstant(StepsLeft, f.workers, 4);
      assert Remaining(addrs, f) == 5 * |addrs| + 2 by { InitialRemaining(addrs); }
    } else {
      var n := |trace| - 1;
      var before :| Reached(mode, addrs, trace[..n], before)
        && Enabled(addrs, before, trace[n]) && f == Apply(mode, addrs, before, trace[n]);
      ReachedIsGood(mode, addrs, trace[..n], before);
      StepIsGood(mode, addrs, before, trace[n]);
      StepProgress(mode, addrs, before, trace[n]);
    }
  }

  lemma InitialRemaining(addrs: seq<string>)
    ensures Remaining(addrs, Initial(|addrs|)) == 5 * |addrs| + 2
  {
    SumConstant(StepsLeft, Initial(|addrs|).workers, 4);
  }

  lemma {:induction false} SlotsCount(ps: seq<Phase>)
    ensures |set i: nat | i < |ps| && ps[i] in {Dialing, Holding, Sent}| == Sum(Slots, ps)
  {
    var s := set i: nat | i < |ps| && ps[i] in {Dialing, Holding, Sent};
    if |ps| == 0 {
      assert s == {};
    } else {
      var n := |ps| - 1;
      SlotsCount(ps[..n]);
      var t := set i: nat | i < |ps[..n]| && ps[..n][i] in {Dialing, Holding, Sent};
      assert forall i: nat :: i < n ==> ps[..n][i] == ps[i];
      assert forall i: nat :: i in t <==> i < n && ps[i] in {Dialing, Holding, Sent};
      if Slots(ps[n]) == 1 {
        assert s == t + {n};
      } else {
        assert s == t;
      }
    }
  }

  /** At most four workers are between taking and giving back a slot, so at most four dial. */
  lemma FourAtATime(mode: Mode, addrs: seq<string>, trace: seq<Action>, f: Fan)
    requires Reached(mode, addrs, trace, f)
    ensures |set i: nat | i < |f.workers| && f.workers[i] in {Dialing, Holding, Sent}| <= 4
    ensures |set i: nat | i < |f.workers| && f.workers[i] == Dialing| <= 4
    ensures forall i :: Enabled(addrs, f, Acquire(i)) <==>
              Is(f, i, Idle) && |set j: nat | j < |f.workers| && f.workers[j] in {Dialing, Holding, Sent}| < 4
  {
    ReachedIsGood(mode, addrs, trace, f);
    SlotsCount(f.workers);
    var s := set i: nat | i < |f.workers| && f.workers[i] in {Dialing, Holding, Sent};
    var d := set i: nat | i < |f.workers| && f.workers[i] == Dialing;
    SubsetCount(d, s);
  }

  lemma {:induction false} SubsetCount<T>(a: set<T>, b: set<T>)
    requires a <= b
    ensures |a| <= |b|
  {
    assert b == a + (b - a);
  }

  lemma {:induction false} DistinctBound(xs: seq<nat>, n: nat)
    requires Distinct(xs) && forall i :: i in xs ==> i < n
    ensures |xs| <= n
    ensures (exists i :: 0 <= i < n && i !in xs) ==> |xs| < n
    decreases n
  {
    if |xs| == 0 {
    } else if n - 1 in xs {
      var k :| 0 <= k < |xs| && xs[k] == n - 1;
      var ys: seq<nat> := xs[..k] + xs[k + 1..];
      forall i | i in ys ensures i < n - 1 {
        var j :| 0 <= j < |ys| && ys[j] == i;
        var at := if j < k then j else j + 1;
        assert ys[j] == xs[at] && xs[at] in xs && xs[at] != xs[k];
      }
      assert forall i :: i in ys ==> i in xs;
      assert Distinct(ys);
      assert forall i :: i in xs ==> i == n - 1 || i in ys;
      DistinctBound(ys, n - 1);
    } else {
      assert xs[0] in xs;
      DistinctBound(xs, n - 1);
    }
  }

  /** The channel has room for every answer: a worker holding one can always send it. */
  lemma SendNeverBlocks(mode: Mode, addrs: seq<string>, trace: seq<Action>, f: Fan, i: nat)
    requires Reached(mode, addrs, trace, f) && Is(f, i, Holding)
    ensures Enabled(addrs, f, Send(i))
  {
    hide Accounted, WinnerIsFirst, Phased, Answered, Sum;
    ReachedIsGood(mode, addrs, trace, f);
    assert i !in f.received + f.queue;
    DistinctBound(f.received + f.queue, |addrs|);
  }

  /** No interleaving gets stuck before everything is finished. */
  lemma NeverStuck(mode: Mode, addrs: seq<string>, trace: seq<Action>, f: Fan)
    requires Reached(mode, addrs, trace, f) && !Finished(f)
    ensures exists a :: Enabled(addrs, f, a)
  {
    hide Accounted, WinnerIsFirst, Reached;
    ReachedIsGood(mode, addrs, trace, f);
    if AllEnded(f) {
      if !f.closed {
        assert Enabled(addrs, f, Close);
      } else if |f.queue| > 0 {
        assert (f.received + f.queue)[|f.received|] == f.queue[0];
        assert f.queue[0] in f.received + f.queue;
        assert Enabled(addrs, f, Receive);
      } else {
        assert Enabled(addrs, f, Stop);
      }
    } else {
      WorkerCanMove(mode, addrs, trace, f);
    }
  }

  lemma WorkerCanMove(mode: Mode, addrs: seq<string>, trace: seq<Action>, f: Fan)
    requires Reached(mode, addrs, trace, f) && Sized(addrs, f) && !AllEnded(f)
    ensures exists a :: Enabled(addrs, f, a)
  {
    hide Reached;
    if i :| 0 <= i < |addrs| && f.workers[i] == Holding {
      SendNeverBlocks(mode, addrs, trace, f, i);
    } else if i :| 0 <= i < |addrs| && f.workers[i] == Dialing {
      assert Enabled(addrs, f, Dial(i, AddressOutcome(addrs[i], Pass, 0, "", "")));
    } else if i :| 0 <= i < |addrs| && f.workers[i] == Sent {
      assert Enabled(addrs, f, Release(i));
    } else {
      SumConstant(Slots, f.workers, 0);
      var i :| 0 <= i < |f.workers| && !Is(f, i, Ended);
      assert Enabled(addrs, f, Acquire(i));
    }
  }

  /** What the collector knows about the addresses; one that was not dialed yet is unknown. */
  function Answers(addrs: seq<string>, f: Fan): seq<AddressOutcome>
    requires |f.answers| == |addrs|
  {
    seq(|addrs|, i requires 0 <= i < |addrs| =>
      if f.answers[i].Some? then f.answers[i].value else AddressOutcome(addrs[i], Unknown, 0, "", ""))
  }

  lemma OutcomesAreDistinct(mode: Mode, addrs: seq<string>, f: Fan)
    requires Good(mode, addrs, f)
    ensures Distinct(f.outcomes) && forall k :: 0 <= k < |f.outcomes| ==> f.outcomes[k] < |addrs|
    ensures forall k :: 0 <= k < |f.outcomes| ==> f.answers[f.outcomes[k]].Some?
  {
    var all := f.received + f.queue;
    assert forall k :: 0 <= k < |f.outcomes| ==> f.outcomes[k] == all[k];
    forall k | 0 <= k < |f.outcomes| ensures f.outcomes[k] < |addrs| && f.answers[f.outcomes[k]].Some? {
      assert all[k] in all;
    }
  }

  /** Whoever is asked, and in whatever order answers arrive, the reported outcomes are the
      recorded addresses' own answers in resolver order. */
  lemma ReportIsInResolverOrder(mode: Mode, addrs: seq<string>, trace: seq<Action>, f: Fan)
    requires Reached(mode, addrs, trace, f) && Distinct(addrs)
    ensures |f.answers| == |addrs| && forall k :: 0 <= k < |f.outcomes| ==> f.outcomes[k] < |addrs|
    ensures SortOutcomes(At(Answers(addrs, f), f.outcomes), addrs)
            == At(Answers(addrs, f), Ascending(set i | i in f.outcomes, |addrs|))
  {
    ReachedIsGood(mode, addrs, trace, f);
    OutcomesAreDistinct(mode, addrs, f);
    SortedOutcomesAre(addrs, Answers(addrs, f), f.outcomes);
  }

  /** A complete interleaving takes 5n + 2 steps. Every address was dialed and answered; every
      connection that was opened is the winner or was closed exactly once; the winner is the
      first connection to arrive, and there is one if any address connected. */
  lemma Completed(mode: Mode, addrs: seq<string>, trace: seq<Action>, f: Fan)
    requires Reached(mode, addrs, trace, f) && Finished(f)
    ensures |trace| == 5 * |addrs| + 2
    ensures |f.answers| == |f.closes| == |addrs|
    ensures forall i :: 0 <= i < |addrs| ==> f.answers[i].Some? && f.answers[i].value.ip == addrs[i] && i in f.received
    ensures mode != CollectAll ==> forall i :: 0 <= i < |addrs| ==>
              f.closes[i] == if Opened(f, i) && f.winner != Some(i) then 1 else 0
    ensures mode == CollectAll ==> f.winner.None? && forall i :: 0 <= i < |addrs| ==> f.closes[i] == 0
    ensures mode != CollectAll && (exists i :: 0 <= i < |addrs| && Opened(f, i)) ==>
              f.winner.Some? && Opened(f, f.winner.value)
    ensures WinnerIsFirst(mode, f)
    ensures mode != FirstWins ==> f.outcomes == f.received
  {
    hide Reached;
    ReachedIsGood(mode, addrs, trace, f);
    assert f.received + f.queue == f.received;
    forall i | 0 <= i < |addrs| ensures f.workers[i] == Ended { assert Is(f, i, Ended); }
    SumConstant(StepsLeft, f.workers, 0);
    assert forall i :: 0 <= i < |addrs| ==> i in f.received;
    AllReceived(f.received, |addrs|);
    if mode != CollectAll && f.winner.None? {
      forall i | 0 <= i < |addrs| ensures !Opened(f, i) {
        assert i in f.received;
        var k :| 0 <= k < |f.received| && f.received[k] == i;
        assert f.outcomes[k] == i;
      }
    }
  }

  lemma AllReceived(xs: seq<nat>, n: nat)
    requires Distinct(xs) && (forall i :: i in xs ==> i < n) && forall i :: 0 <= i < n ==> i in xs
    ensures |xs| == n
  {
    var s := set i | i in xs;
    DistinctBound(xs, n);
    AscendingMeaning(s, n);
    var up := Ascending(s, n);
    SameMembers(xs, up);
    assert |multiset(xs)| == |multiset(up)|;
    FullAscending(s, n);
  }

  lemma {:induction false} FullAscending(s: set<nat>, n: nat)
    requires forall i :: 0 <= i < n ==> i in s
    ensures Ascending(s, n) == seq(n, i => i)
  {
    if n > 0 { FullAscending(s, n - 1); }
  }

  /** Waiting for all: whatever the schedule, the report lists every address once, in resolver
      order. */
  lemma WaitAllReportsEveryAddress(mode: Mode, addrs: seq<string>, trace: seq<Action>, f: Fan)
    requires Reached(mode, addrs, trace, f) && Finished(f) && Distinct(addrs) && mode != FirstWins
    ensures |f.answers| == |addrs| && forall k :: 0 <= k < |f.outcomes| ==> f.outcomes[k] < |addrs|
    ensures SortOutcomes(At(Answers(addrs, f), f.outcomes), addrs) == Answers(addrs, f)
  {
    hide Reached, Finished, SortOutcomes;
    Completed(mode, addrs, trace, f);
    ReportIsInResolverOrder(mode, addrs, trace, f);
    FullAscending(set i | i in f.outcomes, |addrs|);
    assert At(Answers(addrs, f), seq(|addrs|, i => i)) == Answers(addrs, f);
  }
}
