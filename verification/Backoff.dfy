/** The waits of the reconnect loop, in int64 nanoseconds, and when they follow the doubling law. */
module Backoff {
  const SECOND := 1_000_000_000
  const TWO_62 := 0x4000_0000_0000_0000
  const TWO_63 := 0x8000_0000_0000_0000
  const TWO_64 := 0x1_0000_0000_0000_0000

  /** A time.Duration: int64 nanoseconds. */
  type Duration = d: int | -TWO_63 <= d < TWO_63

  /** A positive time.Duration. */
  type Positive = d: int | 0 < d < TWO_63 witness 1

  /** int64 arithmetic wraps around. */
  function Wrap(x: int): (w: Duration)
    ensures -TWO_63 <= x < TWO_63 ==> w == x
    ensures TWO_63 <= x < TWO_64 ==> w == x - TWO_64
  {
    (x + TWO_63) % TWO_64 - TWO_63
  }

  /** The retry variable after one more failed connect. */
  function Grown(retry: int, max: int): int {
    if retry < max then (if Wrap(retry * 2) > max then max else Wrap(retry * 2)) else retry
  }

  /** The wait after the `i`-th failure in a row, counting from 0. */
  function WaitAt(base: int, max: int, i: nat): int {
    if i == 0 then base else Grown(WaitAt(base, max, i - 1), max)
  }

  function Pow2(i: nat): nat {
    if i == 0 then 1 else 2 * Pow2(i - 1)
  }

  /** base * 2^i */
  function Scaled(base: int, i: nat): int {
    if i == 0 then base else 2 * Scaled(base, i - 1)
  }

  lemma {:induction false} ScaledIsPower(base: int, i: nat)
    ensures Scaled(base, i) == base * Pow2(i)
  {
    if i > 0 {
      ScaledIsPower(base, i - 1);
      assert base * Pow2(i) == base * (2 * Pow2(i - 1)) == 2 * (base * Pow2(i - 1));
    }
  }

  lemma {:induction false} ScaledMonotone(base: int, i: nat, j: nat)
    requires base > 0 && i <= j
    ensures 0 < Scaled(base, i) <= Scaled(base, j)
    ensures i < j ==> 2 * Scaled(base, i) <= Scaled(base, j)
    decreases j
  {
    if i < j {
      ScaledMonotone(base, i, j - 1);
    } else if i > 0 {
      ScaledMonotone(base, i - 1, j - 1);
    }
  }

  lemma {:induction false} ScaledShift(base: int, i: nat)
    ensures Scaled(2 * base, i) == Scaled(base, i + 1)
  {
    if i > 0 {
      ScaledShift(base, i - 1);
    }
  }

  function Min(a: int, b: int): int {
    if a < b then a else b
  }

  /** The law: doubled from the base, capped at the maximum; never doubled when the base is not below it. */
  function Law(base: int, max: int, i: nat): int {
    if base >= max then base else Min(Scaled(base, i), max)
  }

  /** The largest of base, 2*base, 4*base, ... that an int64 holds. */
  function Top(base: Positive): (t: Positive)
    ensures base <= t && TWO_63 <= 2 * t
    decreases TWO_63 - base
  {
    if 2 * base >= TWO_63 then base else Top(2 * base)
  }

  lemma {:induction false} TopIsScaled(base: Positive) returns (k: nat)
    ensures Top(base) == Scaled(base, k)
    decreases TWO_63 - base
  {
    if 2 * base >= TWO_63 {
      k := 0;
    } else {
      k := TopIsScaled(2 * base);
      ScaledShift(base, k);
      k := k + 1;
    }
  }

  /** As long as the doubled value stays in int64, the loop follows the law. */
  lemma {:induction false} LawHolds(base: Positive, max: Positive, i: nat)
    requires base >= max || max <= Top(base)
    ensures WaitAt(base, max, i) == Law(base, max, i) && 0 < Law(base, max, i) < TWO_63
  {
    if i > 0 {
      LawHolds(base, max, i - 1);
      if base < max {
        ScaledMonotone(base, 0, i - 1);
        if Scaled(base, i - 1) < max {
          var k := TopIsScaled(base);
          if k < i {
            ScaledMonotone(base, k, i - 1);
          } else {
            ScaledMonotone(base, i - 1, k);
          }
        }
      }
    }
  }

  /** Below the top every wait is a plain doubling. */
  lemma {:induction false} DoublesToTop(base: Positive, max: Positive, k: nat, i: nat)
    requires Top(base) == Scaled(base, k) && Top(base) < max && i <= k
    ensures WaitAt(base, max, i) == Scaled(base, i)
  {
    if i > 0 {
      DoublesToTop(base, max, k, i - 1);
      ScaledMonotone(base, i, k);
      ScaledMonotone(base, i - 1, k);
    }
  }

  /** When the maximum is above the top, the wait after the top wraps to a negative duration. */
  lemma LawFails(base: Positive, max: Positive) returns (i: nat)
    requires base < max && Top(base) < max
    ensures WaitAt(base, max, i) < 0 && Law(base, max, i) == max
  {
    var k := TopIsScaled(base);
    i := k + 1;
    DoublesToTop(base, max, k, k);
  }

  /**
   The waits of every run of failures follow the law exactly when the base is not below the maximum or
   the maximum does not exceed the largest doubling of the base that fits; 2^62 is always low enough.
   */
  lemma LawExactly(base: Positive, max: Positive)
    ensures (forall i: nat :: WaitAt(base, max, i) == Law(base, max, i)) <==> base >= max || max <= Top(base)
    ensures max <= TWO_62 ==> max <= Top(base)
  {
    if base >= max || max <= Top(base) {
      forall i: nat ensures WaitAt(base, max, i) == Law(base, max, i) {
        LawHolds(base, max, i);
      }
    } else {
      var i := LawFails(base, max);
      assert WaitAt(base, max, i) != Law(base, max, i);
    }
  }

  lemma LawNeverDecreases(base: Positive, max: Positive, i: nat)
    ensures Law(base, max, i) <= Law(base, max, i + 1)
    ensures base < max ==> Law(base, max, i) <= max
  {
    ScaledMonotone(base, i, i + 1);
  }

  /** The number of doublings until the maximum is reached. */
  function Doublings(base: Positive, max: Positive): nat
    decreases max - base
  {
    if base >= max then 0
    else if 2 * base >= max then 1
    else 1 + Doublings(2 * base, max)
  }

  lemma {:induction false} DoublingsReach(base: Positive, max: Positive, i: nat)
    ensures Scaled(base, i) < max <==> i < Doublings(base, max)
    decreases max - base
  {
    if base >= max {
      ScaledMonotone(base, 0, i);
    } else if i == 0 {
    } else if 2 * base >= max {
      ScaledMonotone(base, 1, i);
      assert Scaled(base, 1) == 2 * Scaled(base, 0);
    } else {
      ScaledShift(base, i - 1);
      DoublingsReach(2 * base, max, i - 1);
    }
  }

  function TotalWait(base: int, max: int, n: nat): int {
    if n == 0 then 0 else TotalWait(base, max, n - 1) + Law(base, max, n - 1)
  }

  /** The total wait of `n` failures in a row: a geometric sum up to the maximum, then a line. */
  lemma {:induction false} TotalWaitClosed(base: Positive, max: Positive, n: nat)
    ensures base >= max ==> TotalWait(base, max, n) == n * base
    ensures base < max ==>
              var k := Doublings(base, max);
              TotalWait(base, max, n) ==
              if n <= k then base * Pow2(n) - base else base * Pow2(k) - base + (n - k) * max
  {
    if base < max {
      GeometricThenLine(base, max, n);
      ScaledIsPower(base, n);
      ScaledIsPower(base, Doublings(base, max));
    } else if n > 0 {
      TotalWaitClosed(base, max, n - 1);
      assert n * base == (n - 1) * base + base;
    }
  }

  lemma {:induction false} GeometricThenLine(base: Positive, max: Positive, n: nat)
    requires base < max
    ensures var k := Doublings(base, max);
            TotalWait(base, max, n) ==
            if n <= k then Scaled(base, n) - base else Scaled(base, k) - base + (n - k) * max
  {
    if n > 0 {
      GeometricThenLine(base, max, n - 1);
      DoublingsReach(base, max, n - 1);
      var k := Doublings(base, max);
      if n > k {
        Multiples(n - k, max);
      }
    }
  }

  lemma Multiples(n: nat, max: int)
    requires n > 0
    ensures n * max == (n - 1) * max + max
  {
  }

  // ----- the loop

  /**
   One turn of the loop as its surroundings decide it: connect fails and then the timer fires or the
   context is done; or connect succeeds and then the context is done, or the stream is lost, with the
   context done by then or not.
   */
  datatype Round = Failed(ctxDone: bool) | Cancelled | Lost(ctxDone: bool)

  predicate Ends(r: Round) {
    r.Cancelled? || r.ctxDone
  }

  /** Failures in a row at the end of `rounds`. */
  function Streak(rounds: seq<Round>): nat {
    if rounds == [] || !rounds[|rounds| - 1].Failed? then 0 else Streak(rounds[..|rounds| - 1]) + 1
  }

  /** Exactly `n` failures in a row come just before turn `i`. */
  predicate RowOf(rounds: seq<Round>, i: nat, n: nat)
    requires i <= |rounds|
  {
    && n <= i
    && (forall j :: i - n <= j < i ==> rounds[j].Failed?)
    && (n < i ==> !rounds[i - n - 1].Failed?)
  }

  lemma {:induction false} StreakIsRow(rounds: seq<Round>, i: nat)
    requires i <= |rounds|
    ensures RowOf(rounds, i, Streak(rounds[..i]))
    decreases i
  {
    if i > 0 {
      assert rounds[..i][..i - 1] == rounds[..i - 1];
      StreakIsRow(rounds, i - 1);
    }
  }

  lemma RowIsOne(rounds: seq<Round>, i: nat, n: nat, m: nat)
    requires i <= |rounds| && RowOf(rounds, i, n) && RowOf(rounds, i, m)
    ensures n == m
  {
    assert n < i ==> !rounds[i - n - 1].Failed?;
    assert m < i ==> !rounds[i - m - 1].Failed?;
  }

  lemma RoundPush(base: int, max: int, rounds: seq<Round>, r: Round)
    ensures Streak(rounds + [r]) == if r.Failed? then Streak(rounds) + 1 else 0
    ensures WaitAt(base, max, Streak(rounds) + 1) == Grown(WaitAt(base, max, Streak(rounds)), max)
  {
    assert (rounds + [r])[..|rounds|] == rounds;
  }

  function BaseOf(configured: Duration): Positive {
    if configured <= 0 then SECOND else configured
  }

  function MaxOf(configured: Duration): Positive {
    if configured <= 0 then 15 * SECOND else configured
  }

  /** What a turn leaves behind: a timer that fired after `d`, or a cleanup. */
  datatype Entry = Waited(d: int) | CleanedUp

  /** The reconnect loop's own variables, and the history of its waits and cleanups. */
  class Reconnector {
    const reconnectBackoff: Duration
    const maxReconnectBackoff: Duration
    var log: seq<Entry>

    constructor (reconnectBackoff: Duration, maxReconnectBackoff: Duration)
      ensures this.reconnectBackoff == reconnectBackoff && this.maxReconnectBackoff == maxReconnectBackoff
      ensures log == []
    {
      this.reconnectBackoff, this.maxReconnectBackoff := reconnectBackoff, maxReconnectBackoff;
      log := [];
    }

    /**
     Runs until a turn ends the loop; `turns` of the script were used. Every turn leaves one entry, in order:
     a failure waits, the wait being the one due after the failures in a row before it, and a connect that
     succeeded is cleaned up, also when the context is done by then. Only a failure whose wait is cut short
     by the context leaves none, and it is the last turn.
     */
    method Run(rounds: seq<Round>) returns (turns: nat)
      modifies this
      ensures turns <= |rounds|
      ensures forall i :: 0 <= i < turns - 1 ==> !Ends(rounds[i])
      ensures turns < |rounds| ==> turns > 0 && Ends(rounds[turns - 1])
      ensures old(log) <= log
      ensures |log| == |old(log)| + turns - if turns > 0 && rounds[turns - 1] == Failed(true) then 1 else 0
      ensures forall i {:trigger rounds[i]} :: 0 <= i < |log| - |old(log)| ==>
                if rounds[i].Failed? then log[|old(log)| + i].Waited? else log[|old(log)| + i] == CleanedUp
      ensures forall i, n {:trigger RowOf(rounds, i, n)} ::
                0 <= i < |log| - |old(log)| && 0 <= n && rounds[i].Failed? && RowOf(rounds, i, n) ==>
                  var base := if reconnectBackoff <= 0 then 1_000_000_000 else reconnectBackoff;
                  var max := if maxReconnectBackoff <= 0 then 15_000_000_000 else maxReconnectBackoff;
                  log[|old(log)| + i] == Waited(WaitAt(base, max, n))
    {
      ghost var base, max := BaseOf(reconnectBackoff), MaxOf(maxReconnectBackoff);
      hide Wrap, Streak, WaitAt, RowOf, Entries;
      assert rounds[..0] == [];
      StartOfRun(base, max, rounds, log);
      var retry: Duration := reconnectBackoff;
      if retry <= 0 {
        retry := SECOND;
      }
      var maxRetry: Duration := maxReconnectBackoff;
      if maxRetry <= 0 {
        maxRetry := 15 * SECOND;
      }
      turns := 0;
      while turns < |rounds|
        invariant turns <= |rounds| && maxRetry == max
        invariant forall i :: 0 <= i < turns ==> !Ends(rounds[i])
        invariant retry == WaitAt(base, max, Streak(rounds[..turns]))
        invariant Entries(base, max, rounds, turns, old(log), log)
      {
        var round := rounds[turns];
        ghost var before := log;
        RoundPush(base, max, rounds[..turns], round);
        assert rounds[..turns + 1] == rounds[..turns] + [round];
        turns := turns + 1;
        if round.Failed? {
          if round.ctxDone {
            RowsWait(base, max, rounds, turns - 1, old(log), log);
            return;
          }
          log := log + [Waited(retry)];
          EntriesPush(base, max, rounds, turns - 1, old(log), before, Waited(retry));
          if retry < maxRetry {
            retry := Wrap(retry * 2);
            if retry > maxRetry {
              retry := maxRetry;
            }
          }
          continue;
        }
        retry := reconnectBackoff;
        if retry <= 0 {
          retry := SECOND;
        }
        log := log + [CleanedUp];
        EntriesPush(base, max, rounds, turns - 1, old(log), before, CleanedUp);
        if round.Cancelled? || round.ctxDone {
          RowsWait(base, max, rounds, turns, old(log), log);
          return;
        }
      }
      RowsWait(base, max, rounds, turns, old(log), log);
    }
  }

  /** What turn `i` leaves, when it leaves something. */
  function EntryAt(base: int, max: int, rounds: seq<Round>, i: nat): Entry
    requires i < |rounds|
  {
    if rounds[i].Failed? then Waited(WaitAt(base, max, Streak(rounds[..i]))) else CleanedUp
  }

  /** The first `n` turns have left their entries, one each. */
  predicate Entries(base: int, max: int, rounds: seq<Round>, n: nat, was: seq<Entry>, log: seq<Entry>)
    requires n <= |rounds|
  {
    && was <= log && |log| == |was| + n
    && forall i {:trigger EntryAt(base, max, rounds, i)} :: 0 <= i < n ==> log[|was| + i] == EntryAt(base, max, rounds, i)
  }

  lemma EntriesPush(base: int, max: int, rounds: seq<Round>, n: nat, was: seq<Entry>, log: seq<Entry>, e: Entry)
    requires n < |rounds| && Entries(base, max, rounds, n, was, log) && e == EntryAt(base, max, rounds, n)
    ensures Entries(base, max, rounds, n + 1, was, log + [e])
  {
    hide EntryAt;
  }

  lemma StartOfRun(base: int, max: int, rounds: seq<Round>, log: seq<Entry>)
    ensures Streak([]) == 0 && WaitAt(base, max, 0) == base && Entries(base, max, rounds, 0, log, log)
  {
  }

  /** Entries in terms of the rounds alone. */
  lemma RowsWait(base: int, max: int, rounds: seq<Round>, turns: nat, was: seq<Entry>, log: seq<Entry>)
    requires turns <= |rounds| && Entries(base, max, rounds, turns, was, log)
    ensures was <= log && |log| == |was| + turns
    ensures forall i {:trigger rounds[i]} :: 0 <= i < turns ==>
              if rounds[i].Failed? then log[|was| + i].Waited? else log[|was| + i] == CleanedUp
    ensures forall i, n {:trigger RowOf(rounds, i, n)} ::
              0 <= i < turns && 0 <= n && rounds[i].Failed? && RowOf(rounds, i, n) ==>
                log[|was| + i] == Waited(WaitAt(base, max, n))
  {
    hide Streak, RowOf, WaitAt;
    forall i: nat, n: nat | i < turns && rounds[i].Failed? && RowOf(rounds, i, n)
      ensures log[|was| + i] == Waited(WaitAt(base, max, n))
    {
      assert log[|was| + i] == EntryAt(base, max, rounds, i);
      StreakIsRow(rounds, i);
      RowIsOne(rounds, i, n, Streak(rounds[..i]));
    }
    forall i | 0 <= i < turns
      ensures if rounds[i].Failed? then log[|was| + i].Waited? else log[|was| + i] == CleanedUp
    {
      assert log[|was| + i] == EntryAt(base, max, rounds, i);
    }
  }
}
