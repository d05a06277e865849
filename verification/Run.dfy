/**
 The outer loop (internal/loop/loop.go): cycles, the one-slot wake channel, backoff and
 cancellation, under every interleaving of wake requests.
 */
module Run {
  import opened Backoff
  import opened Trace

  datatype Phase = Cycling | AwaitingWake | BackingOff(delay: int) | Stopped

  /** The loop's state, and tallies of what has happened so far. */
  datatype State = State(
    phase: Phase, slot: bool, attempt: nat, cancelled: bool,
    started: nat, received: nat, retried: nat, requested: nat, failures: nat, sinceReceive: nat)

  /** run starts a cycle at once. */
  const START := State(Cycling, false, 0, false, 1, 0, 0, 0, 0, 0)

  datatype Move =
    | RequestWake
    | Cancel
    | CycleEnds(result: Result, rand: real)
    | ReceiveWake
    | BackoffElapses
    | Stop

  predicate Enabled(s: State, m: Move) {
    match m
    case RequestWake => true
    case Cancel => true
    case CycleEnds(_, rand) => s.phase.Cycling? && 0.0 <= rand < 1.0
    case ReceiveWake => s.phase.AwaitingWake? && s.slot
    case BackoffElapses => s.phase.BackingOff?
    case Stop => s.cancelled && (s.phase.AwaitingWake? || s.phase.BackingOff?)
  }

  function Next(s: State, m: Move): State
    requires Enabled(s, m)
  {
    match m
    case RequestWake => s.(slot := true, requested := s.requested + 1, sinceReceive := s.sinceReceive + 1)
    case Cancel => s.(cancelled := true)
    case CycleEnds(result, rand) =>
      if result == Nil then s.(phase := AwaitingWake, attempt := 0, failures := 0)
      else if s.cancelled then s.(phase := Stopped)
      else if result.PreApply? then
        s.(phase := BackingOff(Delay(s.attempt, rand)), attempt := Min(s.attempt, MAX_ATTEMPT) + 1,
           failures := s.failures + 1)
      else s.(phase := AwaitingWake)
    case ReceiveWake =>
      s.(phase := Cycling, slot := false, received := s.received + 1, started := s.started + 1, sinceReceive := 0)
    case BackoffElapses => s.(phase := Cycling, retried := s.retried + 1, started := s.started + 1)
    case Stop => s.(phase := Stopped)
  }

  /** The source's form: fields updated in place, the backoff an object of its own. */
  class Runner {
    const backoff: Backoff
    var slot: bool
    var cancelled: bool
    var phase: Phase
    ghost var tally: State

    ghost function View(): State
      reads this, backoff
    {
      tally.(phase := phase, slot := slot, attempt := backoff.attempt, cancelled := cancelled)
    }

    constructor ()
      ensures fresh(backoff) && View() == START
    {
      backoff := new Backoff();
      slot, cancelled, phase, tally := false, false, Cycling, START;
    }

    /** A full buffer coalesces the request. */
    method Request()
      modifies this
      ensures View() == Next(old(View()), RequestWake)
    {
      if !slot { slot := true; }
      tally := Next(View(), RequestWake);
    }

    method FinishCycle(result: Result, rand: real)
      requires Enabled(View(), CycleEnds(result, rand))
      modifies this, backoff
      ensures View() == Next(old(View()), CycleEnds(result, rand))
    {
      tally := Next(View(), CycleEnds(result, rand));
      if result == Nil {
        backoff.Reset();
      } else if cancelled {
        phase := Stopped;
        return;
      } else if result.PreApply? {
        var delay := backoff.Next(rand);
        phase := BackingOff(delay);
        return;
      }
      phase := AwaitingWake;
    }

    method Receive()
      requires Enabled(View(), ReceiveWake)
      modifies this
      ensures View() == Next(old(View()), ReceiveWake)
    {
      tally := Next(View(), ReceiveWake);
      slot, phase := false, Cycling;
    }

    method Retry()
      requires Enabled(View(), BackoffElapses)
      modifies this
      ensures View() == Next(old(View()), BackoffElapses)
    {
      tally := Next(View(), BackoffElapses);
      phase := Cycling;
    }

    method RequestCancel()
      modifies this
      ensures View() == Next(old(View()), Cancel)
    {
      tally := Next(View(), Cancel);
      cancelled := true;
    }

    method Halt()
      requires Enabled(View(), Stop)
      modifies this
      ensures View() == Next(old(View()), Stop)
    {
      tally := Next(View(), Stop);
      phase := Stopped;
    }
  }

  // ---- Every reachable state ----

  ghost predicate Reached(s: State, n: nat)
    decreases n
  {
    if n == 0 then s == START
    else exists before: State, m: Move :: Reached(before, n - 1) && Enabled(before, m) && s == Next(before, m)
  }

  lemma ReachedNext(s: State, n: nat, m: Move)
    requires Reached(s, n) && Enabled(s, m)
    ensures Reached(Next(s, m), n + 1)
  {
  }

  ghost predicate Invariant(s: State) {
    && s.started == 1 + s.received + s.retried
    && s.received + (if s.slot then 1 else 0) <= s.requested
    && (s.sinceReceive > 0 <==> s.slot)
    && s.attempt == Min(7, s.failures)
    && (s.phase.BackingOff? ==> 800_000_000 <= s.phase.delay <= CAP)
  }

  lemma InvariantKept(s: State, m: Move)
    requires Invariant(s) && Enabled(s, m)
    ensures Invariant(Next(s, m))
  {
    if m.CycleEnds? { DelayBounded(s.attempt, m.rand); }
  }

  /**
   In every reachable state the cycles started are the first one, the wakes received and the
   retries; receives never exceed requests; a wake requested since the last receive has the
   slot full; the attempt counter is the pre-apply failures since the last clean cycle, up to
   seven; and every delay is between 0.8 s and 60 s.
   */
  lemma {:induction false} InvariantHolds(s: State, n: nat)
    requires Reached(s, n)
    ensures Invariant(s)
    decreases n
  {
    if n > 0 {
      var before: State, m: Move :| Reached(before, n - 1) && Enabled(before, m) && s == Next(before, m);
      InvariantHolds(before, n - 1);
      InvariantKept(before, m);
    }
  }

  // ---- No wake is lost ----

  predicate LoopMove(m: Move) {
    m.CycleEnds? || m.ReceiveWake? || m.BackoffElapses?
  }

  /** Neither a cancellation nor its effect. */
  predicate Undisturbed(m: Move) {
    !m.Cancel? && !m.Stop?
  }

  /** s' follows s by the moves. */
  ghost predicate Leads(s: State, moves: seq<Move>, s': State)
    decreases |moves|
  {
    if moves == [] then s' == s
    else Enabled(s, moves[0]) && Leads(Next(s, moves[0]), moves[1..], s')
  }

  ghost function LoopMoves(moves: seq<Move>): nat {
    if moves == [] then 0 else (if LoopMove(moves[0]) then 1 else 0) + LoopMoves(moves[1..])
  }

  /** Of the loop's own moves, cycle ends and cycle starts alternate. */
  lemma {:induction false} EndsAndStartsAlternate(s: State, moves: seq<Move>, s': State)
    requires Leads(s, moves, s') && !s.cancelled && !s.phase.Stopped? && forall m :: m in moves ==> Undisturbed(m)
    ensures !s'.phase.Stopped? && s'.started >= s.started
    ensures LoopMoves(moves) <= 2 * (s'.started - s.started)
                               + (if s.phase.Cycling? then 1 else 0) - (if s'.phase.Cycling? then 1 else 0)
    decreases |moves|
  {
    if moves != [] {
      assert Undisturbed(moves[0]);
      EndsAndStartsAlternate(Next(s, moves[0]), moves[1..], s');
    }
  }

  /** The loop itself has a move to make. */
  ghost predicate CanMove(s: State) {
    exists m :: LoopMove(m) && Enabled(s, m)
  }

  lemma PendingWakeCanMove(s: State)
    requires s.slot && !s.phase.Stopped?
    ensures CanMove(s)
  {
    if s.phase.Cycling? {
      assert Enabled(s, CycleEnds(Nil, 0.0)) && LoopMove(CycleEnds(Nil, 0.0));
    } else if s.phase.AwaitingWake? {
      assert Enabled(s, ReceiveWake) && LoopMove(ReceiveWake);
    } else {
      assert Enabled(s, BackoffElapses) && LoopMove(BackoffElapses);
    }
  }

  lemma {:induction false} SlotStaysFull(s: State, moves: seq<Move>, s': State)
    requires Leads(s, moves, s') && s.slot && !s.cancelled && !s.phase.Stopped?
    requires (forall m :: m in moves ==> Undisturbed(m))
    ensures s'.received >= s.received && !s'.phase.Stopped?
    ensures s'.received == s.received ==> s'.slot
    decreases |moves|
  {
    if moves != [] {
      assert Undisturbed(moves[0]);
      if moves[0] == ReceiveWake {
        ReceivesGrow(Next(s, moves[0]), moves[1..], s');
      } else {
        SlotStaysFull(Next(s, moves[0]), moves[1..], s');
      }
    }
  }

  lemma {:induction false} ReceivesGrow(s: State, moves: seq<Move>, s': State)
    requires Leads(s, moves, s') && !s.cancelled && !s.phase.Stopped?
    requires (forall m :: m in moves ==> Undisturbed(m))
    ensures s'.received >= s.received && !s'.phase.Stopped?
    decreases |moves|
  {
    if moves != [] {
      assert Undisturbed(moves[0]);
      ReceivesGrow(Next(s, moves[0]), moves[1..], s');
    }
  }

  /**
   No wake is lost: in a reachable state with a wake requested since the last receive, and
   however the run goes on short of cancellation, until a wake is received the loop is never
   stuck, and any two moves of its own start a new cycle.
   */
  lemma NoWakeLost(s: State, n: nat, moves: seq<Move>, s': State)
    requires Reached(s, n) && s.sinceReceive > 0 && !s.cancelled && !s.phase.Stopped?
    requires Leads(s, moves, s') && (forall m :: m in moves ==> Undisturbed(m))
    ensures s'.received == s.received ==> s'.slot && CanMove(s')
    ensures LoopMoves(moves) >= 2 ==> s'.started > s.started
  {
    InvariantHolds(s, n);
    SlotStaysFull(s, moves, s');
    EndsAndStartsAlternate(s, moves, s');
    if s'.received == s.received { PendingWakeCanMove(s'); }
  }

  // ---- What follows a cycle ----

  /** Only wakes are requested: the loop itself makes no move, and nobody cancels. */
  ghost predicate OnlyRequests(moves: seq<Move>) {
    forall i :: 0 <= i < |moves| ==> moves[i] == RequestWake
  }

  lemma {:induction false} RequestsOnlyFill(s: State, moves: seq<Move>, s': State)
    requires Leads(s, moves, s') && OnlyRequests(moves)
    ensures s'.slot == (s.slot || moves != [])
    ensures s'.phase == s.phase && s'.attempt == s.attempt && s'.cancelled == s.cancelled
    ensures s'.started == s.started && s'.retried == s.retried && s'.received == s.received
    decreases |moves|
  {
    if moves != [] {
      RequestsOnlyFill(Next(s, moves[0]), moves[1..], s');
    }
  }

  /** The loop's next move, whichever cycle ends and jitters it may still meet, is m. */
  ghost predicate OnlyMove(s: State, m: Move) {
    Enabled(s, m) && forall other :: LoopMove(other) && Enabled(s, other) ==> other == m
  }

  /**
   Short of cancellation a failure before the apply loop is retried by itself: whatever wakes
   are requested meanwhile, or none, the loop's one move is the end of a delay between 0.8 s and
   60 s, and that move starts a cycle.
   */
  lemma PreApplyIsRetried(s: State, n: nat, result: Result, rand: real, moves: seq<Move>, s': State)
    requires Reached(s, n) && Enabled(s, CycleEnds(result, rand)) && result.PreApply? && !s.cancelled
    requires Leads(Next(s, CycleEnds(result, rand)), moves, s') && OnlyRequests(moves)
    ensures s'.phase.BackingOff? && 800_000_000 <= s'.phase.delay <= 60_000_000_000
    ensures s'.phase.delay == Delay(s.attempt, rand) && s'.attempt == Min(s.attempt + 1, 7)
    ensures OnlyMove(s', BackoffElapses)
    ensures Next(s', BackoffElapses).phase == Cycling && Next(s', BackoffElapses).started == s.started + 1
  {
    InvariantHolds(s, n);
    DelayBounded(s.attempt, rand);
    RequestsOnlyFill(Next(s, CycleEnds(result, rand)), moves, s');
  }

  /**
   After any other end of a cycle, short of cancellation, the loop moves only on a wake: one that
   was still pending or one requested since; and that wake starts a cycle.
   */
  lemma OtherwiseAWakeIsNeeded(s: State, n: nat, result: Result, rand: real, moves: seq<Move>, s': State)
    requires Reached(s, n) && Enabled(s, CycleEnds(result, rand)) && !result.PreApply?
    requires result != Nil ==> !s.cancelled
    requires Leads(Next(s, CycleEnds(result, rand)), moves, s') && OnlyRequests(moves)
    ensures CanMove(s') <==> s.slot || moves != []
    ensures CanMove(s') ==> OnlyMove(s', ReceiveWake)
    ensures CanMove(s') ==> Next(s', ReceiveWake).phase == Cycling && Next(s', ReceiveWake).started == s.started + 1
    ensures s'.attempt == if result == Nil then 0 else s.attempt
  {
    RequestsOnlyFill(Next(s, CycleEnds(result, rand)), moves, s');
    if s'.slot { assert Enabled(s', ReceiveWake) && LoopMove(ReceiveWake); }
  }

  /** Once cancelled, a cycle that ends in an error is the last: the loop never moves again. */
  lemma {:induction false} CancelledFailureStops(s: State, result: Result, rand: real, moves: seq<Move>, s': State)
    requires Enabled(s, CycleEnds(result, rand)) && s.cancelled && result != Nil
    requires Leads(Next(s, CycleEnds(result, rand)), moves, s')
    ensures s'.phase.Stopped? && s'.started == s.started && !CanMove(s')
  {
    StoppedForGood(Next(s, CycleEnds(result, rand)), moves, s');
  }

  lemma {:induction false} StoppedForGood(s: State, moves: seq<Move>, s': State)
    requires Leads(s, moves, s') && s.phase.Stopped?
    ensures s'.phase.Stopped? && s'.started == s.started
    decreases |moves|
  {
    if moves != [] { StoppedForGood(Next(s, moves[0]), moves[1..], s'); }
  }

  /** The pre-apply failures at the end of a history, back to its last clean cycle; other failures do not count. */
  ghost function FailuresSince(moves: seq<Move>): nat {
    if moves == [] then 0
    else
      var init, m := moves[..|moves| - 1], moves[|moves| - 1];
      if m.CycleEnds? && m.result == Nil then 0
      else FailuresSince(init) + if m.CycleEnds? && m.result.PreApply? then 1 else 0
  }

  ghost function Count(moves: seq<Move>, m: Move): nat {
    if moves == [] then 0 else Count(moves[..|moves| - 1], m) + if moves[|moves| - 1] == m then 1 else 0
  }

  lemma {:induction false} LeadsLast(s: State, moves: seq<Move>, s': State) returns (before: State)
    requires Leads(s, moves, s') && moves != []
    ensures Leads(s, moves[..|moves| - 1], before)
    ensures Enabled(before, moves[|moves| - 1]) && s' == Next(before, moves[|moves| - 1])
    decreases |moves|
  {
    if |moves| == 1 {
      before := s;
      assert Leads(s', moves[1..], s');
    } else {
      before := LeadsLast(Next(s, moves[0]), moves[1..], s');
      assert moves[..|moves| - 1][0] == moves[0] && moves[..|moves| - 1][1..] == moves[1..][..|moves| - 2];
    }
  }

  /**
   Over a whole history short of cancellation: the attempt counter is the pre-apply failures
   since the last clean cycle, up to seven, and the cycles started are the first, one for every
   wake received and one for every delay elapsed.
   */
  lemma {:induction false} HistoryCounts(moves: seq<Move>, s: State)
    requires Leads(START, moves, s) && forall m :: m in moves ==> Undisturbed(m)
    ensures !s.cancelled && s.attempt == Min(7, FailuresSince(moves))
    ensures s.started == 1 + Count(moves, ReceiveWake) + Count(moves, BackoffElapses)
    ensures s.requested == Count(moves, RequestWake) && s.received == Count(moves, ReceiveWake)
    decreases |moves|
  {
    if moves != [] {
      var before := LeadsLast(START, moves, s);
      HistoryCounts(moves[..|moves| - 1], before);
      assert moves[|moves| - 1] in moves;
    }
  }

  // ---- Histories and the results in them ----

  /** How the cycles of a history ended. */
  ghost function ResultsOf(moves: seq<Move>): seq<Result> {
    if moves == [] then []
    else
      var m := moves[|moves| - 1];
      ResultsOf(moves[..|moves| - 1]) + if m.CycleEnds? then [m.result] else []
  }

  /** The moves lead from the start of run to s, and its cycles ended with these results. */
  ghost predicate Played(moves: seq<Move>, results: seq<Result>, s: State) {
    Leads(START, moves, s) && ResultsOf(moves) == results
  }

  lemma {:induction false} LeadsNext(s: State, moves: seq<Move>, s': State, m: Move)
    requires Leads(s, moves, s') && Enabled(s', m)
    ensures Leads(s, moves + [m], Next(s', m))
    decreases |moves|
  {
    if moves == [] {
      assert Leads(Next(s', m), (moves + [m])[1..], Next(s', m));
    } else {
      LeadsNext(Next(s, moves[0]), moves[1..], s', m);
      assert (moves + [m])[1..] == moves[1..] + [m];
    }
  }

  lemma PlayedNext(moves: seq<Move>, results: seq<Result>, s: State, m: Move)
    requires Played(moves, results, s) && Enabled(s, m)
    ensures Played(moves + [m], results + (if m.CycleEnds? then [m.result] else []), Next(s, m))
  {
    LeadsNext(START, moves, s, m);
    assert (moves + [m])[..|moves|] == moves;
  }

  lemma {:induction false} LeadsReached(moves: seq<Move>, s: State)
    requires Leads(START, moves, s)
    ensures Reached(s, |moves|)
    decreases |moves|
  {
    if moves != [] {
      var before := LeadsLast(START, moves, s);
      LeadsReached(moves[..|moves| - 1], before);
      ReachedNext(before, |moves| - 1, moves[|moves| - 1]);
    }
  }

  /** The loop stops for good only when it was cancelled. */
  lemma {:induction false} StopsOnlyCancelled(s: State, n: nat)
    requires Reached(s, n)
    ensures s.phase.Stopped? ==> s.cancelled
    decreases n
  {
    if n > 0 {
      var before: State, m: Move :| Reached(before, n - 1) && Enabled(before, m) && s == Next(before, m);
      StopsOnlyCancelled(before, n - 1);
    }
  }
}
