/** The shape shared by the bounded retry loops: attempts numbered from 0,
    stopping at the first success, with sleeps recorded between them. The
    high-frequency and monitoring loops sleep only between attempts; the
    generic `retry_operation` also sleeps after the last failure. */
module Retry {
  import opened Primitives

  /** One observable step of a retry loop. */
  datatype Step = Attempt(index: nat) | Sleep

  /** `n` attempts with one sleep between each two consecutive attempts. */
  function Spaced(n: nat): seq<Step> {
    if n == 0 then []
    else if n == 1 then [Attempt(0)]
    else Spaced(n - 1) + [Sleep, Attempt(n - 1)]
  }

  /** `n` attempts, each one followed by a sleep. */
  function SleepAfterEach(n: nat): seq<Step> {
    if n == 0 then [] else SleepAfterEach(n - 1) + [Attempt(n - 1), Sleep]
  }

  /** In `Spaced(n)` attempts and sleeps alternate, the attempts in order and
      starting with attempt 0; so there are `n - 1` sleeps, none before the
      first attempt and none after the last one. */
  lemma {:induction false} SpacedShape(n: nat)
    ensures |Spaced(n)| == if n == 0 then 0 else 2 * n - 1
    ensures forall k :: 0 <= k < |Spaced(n)| ==>
              Spaced(n)[k] == if k % 2 == 0 then Attempt(k / 2) else Sleep
  {
    if n > 1 {
      SpacedShape(n - 1);
    }
  }

  /** A success at attempt `n` after `n` failures looks the same under both
      sleep policies. */
  lemma {:induction false} SleepAfterEachThenAttempt(n: nat)
    ensures SleepAfterEach(n) + [Attempt(n)] == Spaced(n + 1)
  {
    if n > 0 {
      SleepAfterEachThenAttempt(n - 1);
      calc {
        SleepAfterEach(n) + [Attempt(n)];
        SleepAfterEach(n - 1) + [Attempt(n - 1), Sleep] + [Attempt(n)];
        { assert [Attempt(n - 1), Sleep] + [Attempt(n)] == [Attempt(n - 1)] + [Sleep, Attempt(n)]; }
        (SleepAfterEach(n - 1) + [Attempt(n - 1)]) + [Sleep, Attempt(n)];
        Spaced(n) + [Sleep, Attempt(n)];
      }
    }
  }

  /** After `n > 0` failures the two policies differ by exactly one trailing
      sleep. */
  lemma {:induction false} SleepAfterEachIsSpacedThenSleep(n: nat)
    requires n > 0
    ensures SleepAfterEach(n) == Spaced(n) + [Sleep]
  {
    SleepAfterEachThenAttempt(n - 1);
    assert SleepAfterEach(n) == (SleepAfterEach(n - 1) + [Attempt(n - 1)]) + [Sleep];
  }

  /** The index of the first successful attempt among attempts `0 .. bound-1`. */
  function FirstOk<T, E>(attempt: nat -> Result<T, E>, bound: nat): (r: Option<nat>)
    ensures r.Some? ==> r.value < bound && attempt(r.value).Ok?
    ensures r.Some? ==> forall j :: 0 <= j < r.value ==> attempt(j).Err?
    ensures r.None? ==> forall j :: 0 <= j < bound ==> attempt(j).Err?
  {
    if bound == 0 then None
    else
      match FirstOk(attempt, bound - 1)
      case Some(k) => Some(k)
      case None => if attempt(bound - 1).Ok? then Some(bound - 1) else None
  }

  /** One more attempt: it either is the first success or leaves none. */
  lemma FirstOkStep<T, E>(attempt: nat -> Result<T, E>, bound: nat)
    requires FirstOk(attempt, bound).None?
    ensures attempt(bound).Ok? ==> FirstOk(attempt, bound + 1) == Some(bound)
    ensures attempt(bound).Err? ==> FirstOk(attempt, bound + 1).None?
  {
  }

  /** A success preceded only by failures is the first success within any
      larger bound. */
  lemma {:induction false} FirstOkAt<T, E>(attempt: nat -> Result<T, E>, k: nat, bound: nat)
    requires k < bound && attempt(k).Ok?
    requires FirstOk(attempt, k).None?
    ensures FirstOk(attempt, bound) == Some(k)
    decreases bound
  {
    if bound == k + 1 {
      FirstOkStep(attempt, k);
    } else {
      FirstOkAt(attempt, k, bound - 1);
    }
  }

  /** How many of the attempts `0 .. bound-1` got past their first step. */
  function CountOk<T, E>(attempt: nat -> Result<T, E>, bound: nat): (r: nat)
    ensures r <= bound
    ensures r == bound <==> forall j :: 0 <= j < bound ==> attempt(j).Ok?
  {
    if bound == 0 then 0
    else CountOk(attempt, bound - 1) + if attempt(bound - 1).Ok? then 1 else 0
  }
}
