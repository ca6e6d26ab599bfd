/**
 The health state machine: what its status and failing streak say about the whole history
 of probe rounds.
 */
module HealthCheck {

  const U32_MAX: nat := 0xFFFF_FFFF

  datatype Health = Starting | Healthy | Unhealthy

  // One probe round: its verdict, and whether it fell in the start period.
  datatype Round = Round(passed: bool, grace: bool)

  function SaturatingIncrement(n: nat): nat { if n < U32_MAX then n + 1 else U32_MAX }

  function Saturated(n: nat): nat { if n < U32_MAX then n else U32_MAX }

  // ── What a history means ──────────────────────────────────────────────────

  // How many rounds at the end of the history failed in a row.
  function TrailingFailures(h: seq<Round>): (n: nat)
    ensures n <= |h|
  {
    if h == [] || h[|h| - 1].passed then 0 else TrailingFailures(h[..|h| - 1]) + 1
  }

  // Since the last success, some failure outside the start period found the streak, itself
  // included, beyond the tolerated retries.
  predicate Breached(h: seq<Round>, retries: nat) {
    exists i | 0 <= i < |h| :: Breaches(h, retries, i)
  }

  predicate Breaches(h: seq<Round>, retries: nat, i: int) {
    var start := |h| - TrailingFailures(h);
    start <= i < |h| && !h[i].grace && Saturated(i - start + 1) >= SaturatingIncrement(retries)
  }

  predicate EverPassed(h: seq<Round>) {
    exists i :: 0 <= i < |h| && h[i].passed
  }

  function Verdict(h: seq<Round>, retries: nat): Health {
    if Breached(h, retries) then Unhealthy else if EverPassed(h) then Healthy else Starting
  }

  // ── The machine ───────────────────────────────────────────────────────────

  class HealthState {
    const retries: nat
    var status: Health
    var failingStreak: nat
    ghost var history: seq<Round>

    // After any history, the streak is its trailing failures, saturated, and the status is
    // the verdict on it.
    ghost predicate Valid()
      reads this
    {
      failingStreak == Saturated(TrailingFailures(history)) && status == Verdict(history, retries)
    }

    constructor (tolerated: nat)
      ensures Valid() && history == [] && retries == tolerated
    {
      retries, status, failingStreak, history := tolerated, Starting, 0, [];
    }

    method Record(passed: bool, inStartPeriod: bool)
      requires Valid()
      modifies this
      ensures Valid() && history == old(history) + [Round(passed, inStartPeriod)]
    {
      ghost var round := Round(passed, inStartPeriod);
      hide Verdict, Saturated;
      RecordedVerdict(history, round, retries);
      RecordedStreak(history, round);
      history := history + [round];
      if passed {
        failingStreak := 0;
        status := Healthy;
        return;
      }
      failingStreak := SaturatingIncrement(failingStreak);
      if inStartPeriod {
        return;
      }
      if failingStreak >= SaturatingIncrement(retries) {
        status := Unhealthy;
      }
    }
  }

  lemma TrailingAppend(h: seq<Round>, r: Round)
    ensures TrailingFailures(h + [r]) == if r.passed then 0 else TrailingFailures(h) + 1
  {
    assert (h + [r])[..|h|] == h;
  }

  lemma RecordedStreak(h: seq<Round>, r: Round)
    ensures Saturated(TrailingFailures(h + [r])) ==
            if r.passed then 0 else SaturatingIncrement(Saturated(TrailingFailures(h)))
  {
    TrailingAppend(h, r);
  }

  // A new failure keeps old breaches and may add its own; a success clears them all.
  lemma BreachedAppend(h: seq<Round>, r: Round, retries: nat)
    ensures Breached(h + [r], retries) <==>
            !r.passed && (Breached(h, retries)
                          || (!r.grace && Saturated(TrailingFailures(h) + 1) >= SaturatingIncrement(retries)))
  {
    TrailingAppend(h, r);
    var more := h + [r];
    if !r.passed {
      assert forall i | 0 <= i < |h| :: more[i] == h[i];
      assert Breaches(more, retries, |h|) <==>
             !r.grace && Saturated(TrailingFailures(h) + 1) >= SaturatingIncrement(retries);
      assert forall i | i < |h| :: Breaches(more, retries, i) <==> Breaches(h, retries, i);
      assert forall i | i > |h| :: !Breaches(more, retries, i);
    }
  }

  lemma PassedAppend(h: seq<Round>, r: Round)
    ensures EverPassed(h + [r]) <==> EverPassed(h) || r.passed
  {
    var more := h + [r];
    if EverPassed(h) {
      var i :| 0 <= i < |h| && h[i].passed;
      assert more[i].passed;
    }
    if r.passed {
      assert more[|h|].passed;
    }
  }

  lemma RecordedVerdict(h: seq<Round>, r: Round, retries: nat)
    ensures Verdict(h + [r], retries) ==
            if r.passed then Healthy
            else if !r.grace && SaturatingIncrement(Saturated(TrailingFailures(h))) >= SaturatingIncrement(retries)
            then Unhealthy
            else Verdict(h, retries)
  {
    hide Breached, EverPassed, TrailingFailures;
    BreachedAppend(h, r, retries);
    PassedAppend(h, r);
  }

  // ── The documented start period ───────────────────────────────────────────

  // The failures of the trailing run that fell outside the start period: the only ones the
  // documentation counts against the retries.
  function CountedFailures(h: seq<Round>): (n: nat)
    ensures n <= TrailingFailures(h)
  {
    if h == [] || h[|h| - 1].passed then 0
    else CountedFailures(h[..|h| - 1]) + if h[|h| - 1].grace then 0 else 1
  }

  // The start period comes first.
  predicate GraceFirst(h: seq<Round>) {
    forall i, j | 0 <= i < j < |h| && h[j].grace :: h[i].grace
  }

  lemma {:induction false} NoneCountedYet(h: seq<Round>)
    requires GraceFirst(h) && h != [] && h[|h| - 1].grace
    ensures CountedFailures(h) == 0
  {
    var n := |h| - 1;
    if n > 0 && !h[n].passed {
      assert h[..n][n - 1].grace;
      NoneCountedYet(h[..n]);
    }
  }

  lemma BreachedAtTheEnd(h: seq<Round>, retries: nat)
    requires GraceFirst(h)
    ensures Breached(h, retries) <==>
            CountedFailures(h) > 0 && Saturated(TrailingFailures(h)) >= SaturatingIncrement(retries)
  {
    var n := |h| - 1;
    if h != [] && h[n].grace {
      NoneCountedYet(h);
    } else if CountedFailures(h) > 0 && Saturated(TrailingFailures(h)) >= SaturatingIncrement(retries) {
      assert Breaches(h, retries, n);
    }
  }

  // The documented rule, Unhealthy once the counted failures alone exceed the retries, is
  // what the code does exactly when none is counted yet, or they alone exceed them, or the
  // whole run of failures does not.
  lemma DocumentedRuleExactly(h: seq<Round>, retries: nat)
    requires GraceFirst(h)
    ensures (Breached(h, retries) <==> Saturated(CountedFailures(h)) >= SaturatingIncrement(retries)) <==>
            (|| CountedFailures(h) == 0
             || Saturated(CountedFailures(h)) >= SaturatingIncrement(retries)
             || Saturated(TrailingFailures(h)) < SaturatingIncrement(retries))
  {
    hide Breached, TrailingFailures, CountedFailures;
    BreachedAtTheEnd(h, retries);
  }

  // With two retries, two failures in the start period and one after it: one failure is
  // counted, and the machine is already Unhealthy.
  lemma GraceFailuresCount()
    ensures var h := [Round(false, true), Round(false, true), Round(false, false)];
            GraceFirst(h) && CountedFailures(h) == 1 && Verdict(h, 2) == Unhealthy
  {
    var two := [Round(false, true), Round(false, true)];
    var h := two + [Round(false, false)];
    assert h == [Round(false, true), Round(false, true), Round(false, false)];
    NoneCountedYet(two);
    assert h[..2] == two;
    assert TrailingFailures(two) == 2 by {
      TrailingAppend([Round(false, true)], Round(false, true));
      assert [Round(false, true)][..0] == [];
    }
    RecordedVerdict(two, Round(false, false), 2);
  }

  // ── The one-shot probe ────────────────────────────────────────────────────

  // Attempts in a row, none of them in a start period.
  function Attempts(outcome: nat -> bool, n: nat): seq<Round> {
    seq(n, i requires 0 <= i < n => Round(outcome(i), false))
  }

  lemma AttemptsNext(outcome: nat -> bool, n: nat)
    ensures Attempts(outcome, n + 1) == Attempts(outcome, n) + [Round(outcome(n), false)]
  {
  }

  lemma {:induction false} AllFailing(outcome: nat -> bool, n: nat)
    requires forall i: nat | i < n :: !outcome(i)
    ensures TrailingFailures(Attempts(outcome, n)) == n
  {
    if n > 0 {
      AllFailing(outcome, n - 1);
      AttemptsNext(outcome, n - 1);
      TrailingAppend(Attempts(outcome, n - 1), Round(outcome(n - 1), false));
    }
  }

  // probe stops at the first success, and its verdict is the one the machine reaches over
  // the attempts it made.
  method Probe(retries: nat, outcome: nat -> bool) returns (health: Health, made: nat)
    requires retries <= U32_MAX
    ensures health == Verdict(Attempts(outcome, made), retries)
    ensures made <= SaturatingIncrement(retries) && (forall i: nat | i + 1 < made :: !outcome(i))
    ensures health == Healthy <==> exists i: nat :: i < SaturatingIncrement(retries) && outcome(i)
    ensures health == Unhealthy <==> forall i: nat | i < SaturatingIncrement(retries) :: !outcome(i)
  {
    var attempts := SaturatingIncrement(retries);
    for i := 0 to attempts
      invariant forall j: nat | j < i :: !outcome(j)
    {
      if outcome(i) {
        AttemptsNext(outcome, i);
        RecordedVerdict(Attempts(outcome, i), Round(true, false), retries);
        return Healthy, i + 1;
      }
    }
    AllFailing(outcome, attempts - 1);
    AttemptsNext(outcome, attempts - 1);
    RecordedVerdict(Attempts(outcome, attempts - 1), Round(false, false), retries);
    return Unhealthy, attempts;
  }
}
