/** A token bucket over real arithmetic. Clock readings and waits are whole nanoseconds, as in Go. */
module TokenBucket {

  const SECOND: int := 1000000000
  const MIN_WAIT: int := 10000000

  datatype Bucket = Bucket(rate: real, burst: real, tokens: real, lastRefill: int)

  ghost predicate Valid(b: Bucket) {
    b.rate > 0.0 && b.burst >= 1.0 && 0.0 <= b.tokens <= b.burst
  }

  /** What a rate earns in some nanoseconds. */
  function Credit(rate: real, nanos: int): real {
    nanos as real / SECOND as real * rate
  }

  function Refilled(b: Bucket, now: int): Bucket {
    if now <= b.lastRefill then b else
    var tokens := b.tokens + Credit(b.rate, now - b.lastRefill);
    b.(tokens := if tokens > b.burst then b.burst else tokens, lastRefill := now)
  }

  /** One Allow: the new bucket, and whether it admitted. */
  function Allowed(b: Bucket, now: int): (Bucket, bool) {
    var r := Refilled(b, now);
    if r.tokens < 1.0 then (r, false) else (r.(tokens := r.tokens - 1.0), true)
  }

  /** The nanoseconds it takes to earn what one token still lacks. */
  function Owed(b: Bucket): real
    requires b.rate > 0.0
  {
    (1.0 - b.tokens) / b.rate * SECOND as real
  }

  /** A duration is whole nanoseconds, so the fraction is lost. */
  function NextWait(b: Bucket): int {
    if b.rate <= 0.0 then SECOND
    else if 1.0 - b.tokens <= 0.0 then 0
    else if Owed(b).Floor < MIN_WAIT then MIN_WAIT else Owed(b).Floor
  }

  class TokenBucket {
    var rate: real
    var burst: real
    var tokens: real
    var lastRefill: int

    function View(): Bucket
      reads this
    {
      Bucket(rate, burst, tokens, lastRefill)
    }

    /** A rate or a burst that is not positive becomes one. */
    constructor (ratePerSecond: real, burst: int, now: int)
      ensures Valid(View()) && View().tokens == View().burst && lastRefill == now
      ensures rate == (if ratePerSecond > 0.0 then ratePerSecond else 1.0)
      ensures this.burst == (if burst > 0 then burst as real else 1.0)
    {
      var r, n := ratePerSecond, burst;
      if r <= 0.0 {
        r := 1.0;
      }
      if n <= 0 {
        n := 1;
      }
      rate := r;
      this.burst := n as real;
      tokens := n as real;
      lastRefill := now;
    }

    method Refill(now: int)
      modifies this
      ensures View() == Refilled(old(View()), now)
    {
      var elapsed := now - lastRefill;
      if elapsed <= 0 {
        return;
      }
      tokens := tokens + Credit(rate, elapsed);
      if tokens > burst {
        tokens := burst;
      }
      lastRefill := now;
    }

    method Allow(now: int) returns (ok: bool)
      requires Valid(View())
      modifies this
      ensures Valid(View()) && (View(), ok) == Allowed(old(View()), now)
    {
      AllowKeeps(View(), now);
      Refill(now);
      if tokens < 1.0 {
        return false;
      }
      tokens := tokens - 1.0;
      return true;
    }

    method Wait(readings: seq<int>) returns (ok: bool)
      requires Valid(View()) && readings != []
      modifies this
      ensures Valid(View()) && (View(), ok) == Waited(old(View()), readings)
    {
      hide Allowed, Valid;
      for i := 0 to |readings|
        invariant Valid(View()) && Waited(View(), readings[i..]) == Waited(old(View()), readings)
      {
        assert readings[i..][1..] == readings[i + 1..];
        var admitted := Allow(readings[i]);
        if admitted {
          return true;
        }
      }
      return false;
    }
  }

  // ---- Admission over any calls --------------------------------------------------------------

  function Play(b: Bucket, readings: seq<int>): Bucket
    decreases |readings|
  {
    if readings == [] then b else Play(Allowed(b, readings[0]).0, readings[1..])
  }

  function Admitted(b: Bucket, readings: seq<int>): nat
    decreases |readings|
  {
    if readings == [] then 0 else
    (if Allowed(b, readings[0]).1 then 1 else 0) + Admitted(Allowed(b, readings[0]).0, readings[1..])
  }

  /** Earnings that found the bucket full. */
  function Spilled(b: Bucket, readings: seq<int>): real
    decreases |readings|
  {
    if readings == [] then 0.0 else
    Overflow(b, readings[0]) + Spilled(Allowed(b, readings[0]).0, readings[1..])
  }

  function Overflow(b: Bucket, now: int): real {
    if now <= b.lastRefill || b.tokens + Credit(b.rate, now - b.lastRefill) <= b.burst then 0.0
    else b.tokens + Credit(b.rate, now - b.lastRefill) - b.burst
  }

  lemma CreditFacts(rate: real, m: int, n: int)
    ensures Credit(rate, m + n) == Credit(rate, m) + Credit(rate, n)
    ensures rate > 0.0 && m >= 0 ==> Credit(rate, m) >= 0.0
  {
  }

  lemma AllowKeeps(b: Bucket, now: int)
    requires Valid(b)
    ensures var b' := Allowed(b, now).0; Valid(b') && b'.rate == b.rate && b'.burst == b.burst
    ensures Allowed(b, now).0.lastRefill == if now <= b.lastRefill then b.lastRefill else now
  {
    CreditFacts(b.rate, now - b.lastRefill, 0);
    hide Credit;
  }

  /**
    Conservation over any calls, in any order of clock readings: what was there and what was earned
    between the two refill points is what is left, plus what was admitted, plus what overflowed.
   */
  lemma {:induction false} Conservation(b: Bucket, readings: seq<int>)
    requires Valid(b)
    ensures var b' := Play(b, readings); Valid(b') && b'.rate == b.rate && b'.burst == b.burst && b.lastRefill <= b'.lastRefill
    ensures var b' := Play(b, readings);
      && Spilled(b, readings) >= 0.0
      && b'.tokens + Admitted(b, readings) as real + Spilled(b, readings) == b.tokens + Credit(b.rate, b'.lastRefill - b.lastRefill)
    decreases |readings|
  {
    hide Credit;
    if readings == [] {
      CreditFacts(b.rate, 0, 0);
    } else {
      var now, next := readings[0], Allowed(b, readings[0]).0;
      AllowKeeps(b, now);
      Conservation(next, readings[1..]);
      CreditFacts(b.rate, next.lastRefill - b.lastRefill, Play(b, readings).lastRefill - next.lastRefill);
      CreditFacts(b.rate, 0, 0);
    }
  }

  lemma {:induction false} PlaySplits(b: Bucket, early: seq<int>, late: seq<int>)
    ensures Play(b, early + late) == Play(Play(b, early), late)
    ensures Admitted(b, early + late) == Admitted(b, early) + Admitted(Play(b, early), late)
    decreases |early|
  {
    hide Allowed;
    if early == [] {
      assert early + late == late;
    } else {
      assert (early + late)[1..] == early[1..] + late;
      PlaySplits(Allowed(b, early[0]).0, early[1..], late);
    }
  }

  /** In any window of any run the calls admitted are at most the burst plus what the rate earns in the window. */
  lemma WindowBound(b: Bucket, before: seq<int>, window: seq<int>)
    requires Valid(b)
    ensures var start, end := Play(b, before), Play(b, before + window);
      && Admitted(b, before + window) - Admitted(b, before) >= 0
      && (Admitted(b, before + window) - Admitted(b, before)) as real <= b.burst + Credit(b.rate, end.lastRefill - start.lastRefill)
  {
    PlaySplits(b, before, window);
    Conservation(b, before);
    Conservation(Play(b, before), window);
  }

  /** A clock that does not advance mints nothing: exactly the whole tokens that are left can be taken. */
  lemma {:induction false} StandingClockMintsNothing(b: Bucket, readings: seq<int>)
    requires Valid(b) && forall i | 0 <= i < |readings| :: readings[i] <= b.lastRefill
    ensures Admitted(b, readings) == if |readings| <= b.tokens.Floor then |readings| else b.tokens.Floor
    ensures Play(b, readings) == b.(tokens := b.tokens - Admitted(b, readings) as real)
    decreases |readings|
  {
    if readings != [] {
      StandingClockMintsNothing(Allowed(b, readings[0]).0, readings[1..]);
    }
  }

  // ---- Waiting -------------------------------------------------------------------------------

  /** Waiting without rivals: calls at the readings until one is admitted or the context ends. */
  function Waited(b: Bucket, readings: seq<int>): (Bucket, bool)
    decreases |readings|
  {
    if readings == [] then (b, false) else
    var (b', ok) := Allowed(b, readings[0]);
    if ok then (b', true) else Waited(b', readings[1..])
  }

  /** Until one is admitted, every reading comes at least the announced wait after the one before. */
  ghost predicate Sleeps(b: Bucket, readings: seq<int>)
    decreases |readings|
  {
    |readings| <= 1 || Allowed(b, readings[0]).1 ||
    var b' := Allowed(b, readings[0]).0;
    readings[0] + NextWait(b') <= readings[1] && Sleeps(b', readings[1..])
  }

  lemma Monotone(x: real, y: real, rate: real)
    requires rate > 0.0
    ensures x >= y <==> x * rate >= y * rate
  {
    if x >= y { assert (x - y) * rate >= 0.0; } else { assert (y - x) * rate > 0.0; }
  }

  lemma CreditCovers(rate: real, nanos: int, missing: real)
    requires rate > 0.0
    ensures Credit(rate, nanos) >= missing <==> nanos as real >= missing / rate * SECOND as real
  {
    Monotone(nanos as real / SECOND as real, missing / rate, rate);
  }

  /** A short bucket admits at a reading exactly when what was owed has passed since the last refill. */
  lemma AdmitsOncePaid(b: Bucket, now: int)
    requires Valid(b) && b.tokens < 1.0
    ensures Owed(b) > 0.0
    ensures Allowed(b, now).1 <==> (now - b.lastRefill) as real >= Owed(b)
  {
    CreditCovers(b.rate, now - b.lastRefill, 1.0 - b.tokens);
    CreditCovers(b.rate, 0, 1.0 - b.tokens);
    CreditFacts(b.rate, 0, 0);
    hide Credit;
  }

  /**
    Sleeping exactly the announced wait is enough if and only if nothing was cut off it: what is owed is
    a whole number of nanoseconds or no more than the minimal wait. One nanosecond more is always enough.
   */
  lemma SleepingIsEnough(b: Bucket, late: nat)
    requires Valid(b) && b.tokens < 1.0
    ensures Allowed(b, b.lastRefill + NextWait(b) + late).1 <==> late > 0 || Owed(b) <= MIN_WAIT as real || Owed(b) == Owed(b).Floor as real
  {
    AdmitsOncePaid(b, b.lastRefill + NextWait(b) + late);
    hide Owed, Allowed;
  }

  /** Three tokens a second: a third of a second is not whole, and the announced wait ends too early. */
  lemma SleepingCanFallShort()
    ensures var b := Bucket(3.0, 1.0, 0.0, 0);
      Valid(b) && NextWait(b) == 333333333 && !Allowed(b, b.lastRefill + NextWait(b)).1
  {
    var b := Bucket(3.0, 1.0, 0.0, 0);
    AdmitsOncePaid(b, 333333333);
    assert Owed(b) == 1000000000.0 / 3.0;
  }

  /** Without rivals and with a clock that never runs backward, the third call of a Wait is always admitted. */
  lemma WaitNeedsTwoSleeps(b: Bucket, readings: seq<int>)
    requires Valid(b) && |readings| >= 3 && b.lastRefill <= readings[0]
    requires Sleeps(b, readings)
    ensures Waited(b, readings) == Waited(b, readings[..3]) && Waited(b, readings).1
  {
    hide Owed, Credit, NextWait, Sleeps, Waited;
    var (b1, ok1) := Allowed(b, readings[0]);
    AllowKeeps(b, readings[0]);
    var rest, few := readings[1..], readings[..3];
    Unfold(b, readings);
    Unfold(b, few);
    if !ok1 {
      var (b2, ok2) := Allowed(b1, rest[0]);
      AllowKeeps(b1, rest[0]);
      Unfold(b1, rest);
      Unfold(b1, few[1..]);
      ShortAfter(b, readings[0]);
      if !ok2 {
        ShortAfter(b1, rest[0]);
        SecondSleepPays(b1, rest[0], rest[1]);
        Unfold(b2, rest[1..]);
        Unfold(b2, few[1..][1..]);
      }
    }
  }

  lemma Unfold(b: Bucket, readings: seq<int>)
    requires readings != []
    ensures Waited(b, readings) == if Allowed(b, readings[0]).1 then (Allowed(b, readings[0]).0, true) else Waited(Allowed(b, readings[0]).0, readings[1..])
    ensures Sleeps(b, readings) && |readings| > 1 && !Allowed(b, readings[0]).1 ==>
      readings[0] + NextWait(Allowed(b, readings[0]).0) <= readings[1] && Sleeps(Allowed(b, readings[0]).0, readings[1..])
  {
    hide Allowed;
  }

  lemma ShortAfter(b: Bucket, now: int)
    requires Valid(b) && !Allowed(b, now).1
    ensures Allowed(b, now).0.tokens < 1.0
  {
  }

  /** A call that came too early, although the wait had passed, leaves less than the minimal wait to pay. */
  lemma SecondSleepPays(b: Bucket, first: int, second: int)
    requires Valid(b) && b.tokens < 1.0 && b.lastRefill + NextWait(b) <= first && !Allowed(b, first).1
    requires var b' := Allowed(b, first).0; first + NextWait(b') <= second
    ensures Allowed(Allowed(b, first).0, second).1
  {
    var b' := Allowed(b, first).0;
    AllowKeeps(b, first);
    AdmitsOncePaid(b, first);
    AdmitsOncePaid(b', second);
    assert Owed(b) - NextWait(b) as real < 1.0;
    OwedAfter(b, first);
  }

  lemma OwedAfter(b: Bucket, now: int)
    requires Valid(b) && b.tokens < 1.0 && b.lastRefill <= now && !Allowed(b, now).1
    ensures Owed(Allowed(b, now).0) == Owed(b) - (now - b.lastRefill) as real
  {
    var b', n := Allowed(b, now).0, now - b.lastRefill;
    assert b'.tokens == b.tokens + Credit(b.rate, n);
    assert (1.0 - b'.tokens) / b.rate == (1.0 - b.tokens) / b.rate - n as real / SECOND as real;
  }
}
