/** The delay before a failed cycle is retried (internal/loop/backoff.go).  Durations are nanoseconds. */
module Backoff {

  const BASE := 1_000_000_000
  const CAP := 60_000_000_000
  const MAX_ATTEMPT := 6

  /** 1 << n */
  function Shift(n: nat): nat {
    if n == 0 then 1 else 2 * Shift(n - 1)
  }

  function Min(a: int, b: int): int {
    if a < b then a else b
  }

  /** The delay before jitter. */
  function Level(attempt: nat): int {
    Min(BASE * Shift(Min(attempt, MAX_ATTEMPT)), CAP)
  }

  /** In [0.8, 1.2) for a draw from [0, 1). */
  function Jitter(rand: real): real {
    1.0 + (rand * 0.4 - 0.2)
  }

  function Scaled(d: int, jitter: real): int {
    (d as real * jitter).Floor
  }

  /** The delay for an attempt count and a draw. */
  function Delay(attempt: nat, rand: real): int {
    Min(Scaled(Level(attempt), Jitter(rand)), CAP)
  }

  lemma Shifts()
    ensures Shift(0) == 1 && Shift(1) == 2 && Shift(2) == 4 && Shift(3) == 8
    ensures Shift(4) == 16 && Shift(5) == 32 && Shift(6) == 64
  {
    assert Shift(3) == 2 * Shift(2) && Shift(4) == 2 * Shift(3);
    assert Shift(5) == 2 * Shift(4) && Shift(6) == 2 * Shift(5);
  }

  lemma LevelRange(attempt: nat)
    ensures BASE <= Level(attempt) <= CAP
    ensures BASE * Shift(Min(attempt, MAX_ATTEMPT)) < 0x8000_0000_0000_0000
  {
    Shifts();
    var a := Min(attempt, MAX_ATTEMPT);
    assert a == 0 || a == 1 || a == 2 || a == 3 || a == 4 || a == 5 || a == 6;
  }

  lemma ScaleKeepsOrder(a: real, x: real, y: real)
    requires a >= 0.0 && x <= y
    ensures a * x <= a * y
  {
  }

  lemma ScaledRange(d: int, jitter: real)
    requires BASE <= d && 0.8 <= jitter < 1.2
    ensures (d as real) * 0.8 - 1.0 < Scaled(d, jitter) as real <= (d as real) * 1.2
    ensures Scaled(d, jitter) >= 800_000_000
  {
    ScaleKeepsOrder(d as real, 0.8, jitter);
    ScaleKeepsOrder(d as real, jitter, 1.2);
    assert (d as real) * 0.8 >= 800_000_000.0;
  }

  /** Every delay lies between 0.8 s and 60 s, and the shifted base fits a signed 64-bit duration. */
  lemma DelayBounded(attempt: nat, rand: real)
    requires 0.0 <= rand < 1.0
    ensures 800_000_000 <= Delay(attempt, rand) <= CAP
    ensures BASE * Shift(Min(attempt, MAX_ATTEMPT)) < 0x8000_0000_0000_0000
  {
    LevelRange(attempt);
    ScaledRange(Level(attempt), Jitter(rand));
  }

  /** One second doubled with each failure up to 60 s, 20 per cent either way as the draw falls, and never more than 60 s. */
  lemma DelayExactly(attempt: nat, rand: real)
    requires 0.0 <= rand < 1.0
    ensures attempt < 6 ==> Delay(attempt, rand) == ((1_000_000_000 * Shift(attempt)) as real * (0.8 + 0.4 * rand)).Floor
    ensures attempt >= 6 && rand < 0.5 ==> Delay(attempt, rand) == (60_000_000_000.0 * (0.8 + 0.4 * rand)).Floor
    ensures attempt >= 6 && rand >= 0.5 ==> Delay(attempt, rand) == 60_000_000_000
  {
    if attempt < 6 { EarlyDelay(attempt, rand); } else { LastDelay(attempt, rand); }
  }

  lemma EarlyDelay(attempt: nat, rand: real)
    requires 0.0 <= rand < 1.0 && attempt < 6
    ensures Delay(attempt, rand) == ((1_000_000_000 * Shift(attempt)) as real * (0.8 + 0.4 * rand)).Floor
  {
    EarlyLevel(attempt);
    assert Jitter(rand) == 0.8 + 0.4 * rand;
    ScaledBelow(Level(attempt), Jitter(rand), 1.2);
  }

  lemma LastDelay(attempt: nat, rand: real)
    requires 0.0 <= rand < 1.0 && attempt >= 6
    ensures Delay(attempt, rand) == if rand < 0.5 then (60_000_000_000.0 * (0.8 + 0.4 * rand)).Floor else 60_000_000_000
  {
    LastLevel(attempt);
    assert Jitter(rand) == 0.8 + 0.4 * rand;
    if rand < 0.5 { ScaledBelow(CAP, Jitter(rand), 1.0); } else { ScaledAbove(Jitter(rand)); }
  }

  lemma ScaledAbove(jitter: real)
    requires jitter >= 1.0
    ensures Scaled(CAP, jitter) >= CAP
  {
    ScaleKeepsOrder(CAP as real, 1.0, jitter);
  }

  lemma EarlyLevel(attempt: nat)
    requires attempt < 6
    ensures Level(attempt) == 1_000_000_000 * Shift(attempt) <= 32_000_000_000
  {
    Shifts();
    assert attempt == 0 || attempt == 1 || attempt == 2 || attempt == 3 || attempt == 4 || attempt == 5;
  }

  lemma LastLevel(attempt: nat)
    requires attempt >= 6
    ensures Level(attempt) == CAP
  {
    Shifts();
  }

  lemma ScaledBelow(d: int, jitter: real, bound: real)
    requires 0 <= d && jitter <= bound && (d as real) * bound <= CAP as real
    ensures Scaled(d, jitter) <= CAP
  {
    ScaleKeepsOrder(d as real, jitter, bound);
  }

  /** Up to the last level each failure waits strictly longer than the one before, whatever the jitter. */
  lemma DelayIncreases(attempt: nat, rand: real, rand': real)
    requires attempt < MAX_ATTEMPT && 0.0 <= rand < 1.0 && 0.0 <= rand' < 1.0
    ensures Delay(attempt, rand) < Delay(attempt + 1, rand')
  {
    Shifts();
    LevelRange(attempt);
    LevelRange(attempt + 1);
    ScaledRange(Level(attempt), Jitter(rand));
    ScaledRange(Level(attempt + 1), Jitter(rand'));
    assert attempt == 0 || attempt == 1 || attempt == 2 || attempt == 3 || attempt == 4 || attempt == 5;
  }

  /** After a reset the next delay is shorter than any that a failure before it could have led to. */
  lemma ResetShortens(rand: real, attempt: nat, rand': real)
    requires attempt > 0 && 0.0 <= rand < 1.0 && 0.0 <= rand' < 1.0
    ensures Delay(0, rand) < Delay(attempt, rand')
  {
    Shifts();
    LevelRange(attempt);
    var a := Min(attempt, MAX_ATTEMPT);
    assert a == 1 || a == 2 || a == 3 || a == 4 || a == 5 || a == 6;
    assert Level(0) == BASE && Level(attempt) >= 2 * BASE;
    ScaledRange(Level(0), Jitter(rand));
    ScaledRange(Level(attempt), Jitter(rand'));
  }

  class Backoff {
    var attempt: nat

    constructor ()
      ensures attempt == 0
    {
      attempt := 0;
    }

    method Next(rand: real) returns (scaled: int)
      requires 0.0 <= rand < 1.0
      modifies this
      ensures scaled == Delay(old(attempt), rand)
      ensures attempt == Min(old(attempt), MAX_ATTEMPT) + 1
    {
      if attempt > MAX_ATTEMPT {
        attempt := MAX_ATTEMPT;
      }
      DelayBounded(attempt, rand);
      var d := BASE * Shift(attempt);
      if d > CAP {
        d := CAP;
      }
      attempt := attempt + 1;
      var jitter := 1.0 + (rand * 0.4 - 0.2);
      scaled := (d as real * jitter).Floor;
      if scaled > CAP {
        scaled := CAP;
      }
      if scaled < 0 {
        scaled := BASE;
      }
    }

    method Reset()
      modifies this
      ensures attempt == 0
    {
      attempt := 0;
    }
  }
}
