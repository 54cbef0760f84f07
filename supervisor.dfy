/**
 * The retry shell around the main loop: a counter from 1, never reset; every failure of an
 * attempt sleeps 5 seconds, and the failure seen when the counter is 5 is raised again.
 */
module Supervisor {
  import opened Trace

  /** `if count == 5: raise`. */
  const MaxAttempts: nat := 5
  /** `time.sleep(5)` after every failure. */
  const BackoffSeconds: nat := 5

  /**
   * How the shell ends: an attempt that never fails keeps the process serving in that
   * attempt for ever; otherwise the last failure is raised out of the script.
   */
  datatype Outcome = Serving(attempt: nat) | Fatal

  /**
   * The shell from attempt `count` on. `fails(k)` says whether attempt k ends with an
   * exception; the inner `while 1` has no other way out.
   */
  function SuperviseFrom(fails: nat -> bool, count: nat): (Outcome, seq<Event>)
    requires 1 <= count <= MaxAttempts
    decreases MaxAttempts - count
  {
    if !fails(count) then (Serving(count), [Attempt(count)])
    else if count == MaxAttempts then (Fatal, [Attempt(count), Sleep(BackoffSeconds)])
    else
      var r := SuperviseFrom(fails, count + 1);
      (r.0, [Attempt(count), Sleep(BackoffSeconds)] + r.1)
  }

  /** The whole shell, starting with `count = 1`. */
  function Supervise(fails: nat -> bool): (Outcome, seq<Event>)
  {
    SuperviseFrom(fails, 1)
  }

  /**
   * From attempt `count` on: the shell is fatal exactly when every attempt up to the fifth
   * fails; otherwise it serves in the first attempt that does not fail. Attempts are numbered
   * consecutively, each failure is followed by its sleep, and a fatal end sleeps before it
   * raises.
   */
  lemma {:induction false} SuperviseFromSpec(fails: nat -> bool, count: nat)
    requires 1 <= count <= MaxAttempts
    ensures var (o, es) := SuperviseFrom(fails, count);
      && (o == Fatal <==> forall k :: count <= k <= MaxAttempts ==> fails(k))
      && (o.Serving? ==>
            && count <= o.attempt <= MaxAttempts
            && !fails(o.attempt)
            && (forall k :: count <= k < o.attempt ==> fails(k))
            && |es| == 2 * (o.attempt - count) + 1
            && es[|es| - 1] == Attempt(o.attempt))
      && (o == Fatal ==>
            && |es| == 2 * (MaxAttempts + 1 - count)
            && es[|es| - 1] == Sleep(BackoffSeconds))
      && Alternating(es, count)
    decreases MaxAttempts - count
  {
    if fails(count) && count < MaxAttempts {
      var r := SuperviseFrom(fails, count + 1);
      SuperviseFromSpec(fails, count + 1);
      var es := [Attempt(count), Sleep(BackoffSeconds)] + r.1;
      forall i | 0 <= i < |es|
        ensures es[i] == if i % 2 == 0 then Attempt(count + i / 2) else Sleep(BackoffSeconds)
      {
        if i >= 2 {
          assert es[i] == r.1[i - 2];
        }
      }
    }
  }

  /**
   * The process dies exactly when the first five attempts all fail; it then has slept five
   * times and made five attempts, the last sleep coming just before the exception.
   */
  lemma FatalIffFiveFailures(fails: nat -> bool)
    ensures var (o, es) := Supervise(fails);
      && (o == Fatal <==> forall k :: 1 <= k <= MaxAttempts ==> fails(k))
      && (o == Fatal ==>
            && Count(es, IsSleep) == MaxAttempts
            && Count(es, IsAttempt) == MaxAttempts
            && es[|es| - 1] == Sleep(BackoffSeconds))
  {
    SuperviseFromSpec(fails, 1);
    var (o, es) := Supervise(fails);
    if o == Fatal {
      AlternatingCounts(es, 1);
    }
  }

  /**
   * The counter is never reset: the process survives at most four failures over its
   * lifetime, serving in attempt k only after the k - 1 failures before it, each followed by
   * one sleep.
   */
  lemma AtMostFourFailures(fails: nat -> bool)
    ensures var (o, es) := Supervise(fails);
      o.Serving? ==>
        && 1 <= o.attempt <= MaxAttempts
        && Count(es, IsSleep) == o.attempt - 1 <= MaxAttempts - 1
        && Count(es, IsAttempt) == o.attempt
        && (forall k :: 1 <= k < o.attempt ==> fails(k))
        && !fails(o.attempt)
  {
    SuperviseFromSpec(fails, 1);
    var (o, es) := Supervise(fails);
    if o.Serving? {
      AlternatingCounts(es, 1);
    }
  }

  /** Attempt `first`, a sleep, attempt `first + 1`, a sleep, and so on. */
  ghost predicate Alternating(es: seq<Event>, first: nat)
  {
    forall i :: 0 <= i < |es| ==>
      es[i] == if i % 2 == 0 then Attempt(first + i / 2) else Sleep(BackoffSeconds)
  }

  /** In a trace alternating attempts and sleeps, the counts follow from its length. */
  lemma {:induction false} AlternatingCounts(es: seq<Event>, first: nat)
    requires Alternating(es, first)
    ensures Count(es, IsAttempt) == (|es| + 1) / 2
    ensures Count(es, IsSleep) == |es| / 2
    decreases |es|
  {
    if |es| >= 2 {
      var tl := es[2..];
      forall i | 0 <= i < |tl|
        ensures tl[i] == if i % 2 == 0 then Attempt(first + 1 + i / 2) else Sleep(BackoffSeconds)
      {
        assert tl[i] == es[i + 2];
      }
      AlternatingCounts(tl, first + 1);
      var hd := [es[0], es[1]];
      assert es[0] == Attempt(first) && es[1] == Sleep(BackoffSeconds);
      assert hd[1..] == [es[1]];
      assert Count(hd, IsAttempt) == 1 && Count(hd, IsSleep) == 1;
      assert es == hd + tl;
      CountAppend(hd, tl, IsAttempt);
      CountAppend(hd, tl, IsSleep);
    } else if |es| == 1 {
      assert es[0] == Attempt(first);
    }
  }
}
