/**
 * pollDevices: passes over the registry, one check_alerts call per device followed by one
 * sleep, an alert handed to alertDevice on the device its `doorbot_id` names, and a normal
 * return after 601 passes.
 */
module Polling {
  import opened Wrappers
  import opened Trace
  import opened Devices

  /** POLLS: seconds slept after every device check. */
  const PollSeconds: nat := 2
  /** `i > 600` ends the loop: the number of full passes. */
  const Passes: nat := 601

  /**
   * The library's answers to one `check_alerts()` call on the polled device: its result, the
   * device's `alert` attribute read next (None when it is None or empty, so falsy), and the
   * replies alertDevice will get if the alert is handled: the first history id (None for an
   * empty history), the alerted device's `last_recording_id` at that moment, and `str()` of
   * the recording URL.
   */
  datatype Poll = Poll(hit: bool, alert: Option<Alert>, newest: Option<int>, recordingId: int, captureUrl: string)

  /** The one error the loop itself raises: `devs[key]` with a key the registry lacks. */
  datatype Failure = KeyError(key: Option<int>)

  /** A piece of run: what was done, and the exception it ended with, if any. */
  datatype Step = Step(events: seq<Event>, raised: Option<Failure>)

  /** `devs[key]`, which raises KeyError for a missing key; `dict.get` gave None for no key. */
  function Lookup(devs: map<int, Device>, key: Option<int>): (r: Option<Device>)
    ensures r.Some? <==> key.Some? && key.value in devs
    ensures r.Some? ==> r.value == devs[key.value]
  {
    if key.Some? && key.value in devs then Some(devs[key.value]) else None
  }

  /** The registry's keys in the order the dict yields them, each once. */
  ghost predicate IsOrder(order: seq<int>, devs: map<int, Device>)
  {
    && (forall i :: 0 <= i < |order| ==> order[i] in devs)
    && (forall k :: k in devs ==> k in order)
    && (forall i, j :: 0 <= i < j < |order| ==> order[i] != order[j])
  }

  /**
   * One iteration of the inner `for`: check the polled device; when the check returns true
   * and the alert is truthy, handle it on the device the alert names (raising when the
   * registry has no such key, before the sleep); then sleep.
   */
  function CheckStep(devs: map<int, Device>, polled: Device, p: Poll): Step
  {
    if p.hit && p.alert.Some? then
      match Lookup(devs, p.alert.value.doorbotId)
      case None => Step([CheckAlerts(polled.id)], Some(KeyError(p.alert.value.doorbotId)))
      case Some(target) =>
        Step([CheckAlerts(polled.id)]
             + AlertEvents(target, p.alert.value, p.newest, p.recordingId, p.captureUrl)
             + [Sleep(PollSeconds)], None)
    else
      Step([CheckAlerts(polled.id), Sleep(PollSeconds)], None)
  }

  /** What one check must look like for the counting lemmas below. */
  ghost predicate StepShape(s: Step, polled: Device)
  {
    && |s.events| >= 1
    && s.events[0] == CheckAlerts(polled.id)
    && Count(s.events, IsCheck) == 1
    && Count(s.events, IsSleep) == (if s.raised.None? then 1 else 0)
    && (s.raised.Some? ==> s.events == [CheckAlerts(polled.id)])
  }

  /** Every check a step function describes has that shape. */
  ghost predicate WellShaped(step: (Device, nat) -> Step)
  {
    forall d, n :: StepShape(step(d, n), d)
  }

  /** The checks of one pollDevices call: the n-th check of device `d` gets the answers polls(n). */
  function Checker(devs: map<int, Device>, polls: nat -> Poll): (Device, nat) -> Step
  {
    (d: Device, n: nat) => CheckStep(devs, d, polls(n))
  }

  /**
   * Checks the devices `polled` in turn, the i-th of them as the (from + i)-th check, stopping
   * at the first exception.
   */
  function RunChecks(step: (Device, nat) -> Step, polled: seq<Device>, from: nat): Step
    decreases |polled|
  {
    if polled == [] then Step([], None)
    else
      var s := step(polled[0], from);
      if s.raised.Some? then s
      else
        var rest := RunChecks(step, polled[1..], from + 1);
        Step(s.events + rest.events, rest.raised)
  }

  /** The registry's devices in its iteration order (`devs.items()`). */
  function InOrder(devs: map<int, Device>, order: seq<int>): (ds: seq<Device>)
    requires forall i :: 0 <= i < |order| ==> order[i] in devs
    ensures |ds| == |order|
    ensures forall i :: 0 <= i < |order| ==> ds[i] == devs[order[i]]
  {
    seq(|order|, i requires 0 <= i < |order| => devs[order[i]])
  }

  /** The devices checked by `n` full passes over `ds`. */
  function Schedule(ds: seq<Device>, n: nat): (s: seq<Device>)
    ensures |s| == n * |ds|
  {
    if n == 0 then [] else Schedule(ds, n - 1) + ds
  }

  /** The whole of pollDevices: 601 passes over the registry, or up to the first exception. */
  function PollRun(devs: map<int, Device>, order: seq<int>, polls: nat -> Poll): Step
    requires IsOrder(order, devs)
  {
    RunChecks(Checker(devs, polls), Schedule(InOrder(devs, order), Passes), 0)
  }

  /**
   * One device check: exactly one check_alerts call, first; the alert is handled (alertDevice's
   * single recording-URL call shows it) exactly when the check returned true and the alert is
   * truthy and names a registered device, and then on that device; a named device that is
   * not registered raises KeyError, with no sleep; otherwise the step ends with its one sleep.
   */
  lemma CheckStepCases(devs: map<int, Device>, polled: Device, p: Poll)
    ensures StepShape(CheckStep(devs, polled, p), polled)
    ensures var s := CheckStep(devs, polled, p);
      && (s.raised.None? ==> s.events[|s.events| - 1] == Sleep(PollSeconds))
      && (s.raised.Some? <==> p.hit && p.alert.Some? && Lookup(devs, p.alert.value.doorbotId).None?)
      && (s.raised.Some? ==> s.raised.value == KeyError(p.alert.value.doorbotId))
      && (Count(s.events, IsRecordingUrl) == 1 <==>
            p.hit && p.alert.Some? && Lookup(devs, p.alert.value.doorbotId).Some?)
      && (Count(s.events, IsRecordingUrl) == 1 ==>
            s.events[1..|s.events| - 1] ==
              AlertEvents(devs[p.alert.value.doorbotId.value], p.alert.value, p.newest, p.recordingId, p.captureUrl))
  {
    var s := CheckStep(devs, polled, p);
    var c := [CheckAlerts(polled.id)];
    var z := [Sleep(PollSeconds)];
    if p.hit && p.alert.Some? && Lookup(devs, p.alert.value.doorbotId).Some? {
      var t := devs[p.alert.value.doorbotId.value];
      var es := AlertEvents(t, p.alert.value, p.newest, p.recordingId, p.captureUrl);
      assert s.events == c + es + z;
      assert s.events[1..|s.events| - 1] == es;
      AlertCalls(t, p.alert.value, p.newest, p.recordingId, p.captureUrl);
      CountThree(c, es, z, IsCheck);
      CountThree(c, es, z, IsSleep);
      CountThree(c, es, z, IsRecordingUrl);
    } else if p.hit && p.alert.Some? {
      assert s.events == c;
    } else {
      assert s.events == c + z;
      CountAppend(c, z, IsCheck);
      CountAppend(c, z, IsSleep);
      CountAppend(c, z, IsRecordingUrl);
    }
  }

  /** The checks of pollDevices all have the shape the counting lemmas need. */
  lemma CheckerShaped(devs: map<int, Device>, polls: nat -> Poll)
    ensures WellShaped(Checker(devs, polls))
  {
    forall d, n ensures StepShape(Checker(devs, polls)(d, n), d) {
      CheckStepCases(devs, d, polls(n));
    }
  }

  /**
   * Running two lists of checks one after the other is running the first and, if it did not
   * raise, the second on the answers that follow.
   */
  lemma {:induction false} RunChecksAppend(step: (Device, nat) -> Step, a: seq<Device>, b: seq<Device>, from: nat)
    ensures var ra := RunChecks(step, a, from);
      var rb := RunChecks(step, b, from + |a|);
      RunChecks(step, a + b, from) ==
        if ra.raised.Some? then ra else Step(ra.events + rb.events, rb.raised)
  {
    if a == [] {
      assert a + b == b;
    } else {
      assert (a + b)[0] == a[0];
      assert (a + b)[1..] == a[1..] + b;
      RunChecksAppend(step, a[1..], b, from + 1);
    }
  }

  /** A run raises exactly when one of its checks raises. */
  lemma {:induction false} RunChecksRaises(step: (Device, nat) -> Step, polled: seq<Device>, from: nat)
    ensures RunChecks(step, polled, from).raised.Some? <==>
      exists i :: 0 <= i < |polled| && step(polled[i], from + i).raised.Some?
  {
    if polled != [] {
      var s := step(polled[0], from);
      if s.raised.None? {
        var tl := polled[1..];
        RunChecksRaises(step, tl, from + 1);
        if RunChecks(step, tl, from + 1).raised.Some? {
          var i :| 0 <= i < |tl| && step(tl[i], from + 1 + i).raised.Some?;
          assert polled[i + 1] == tl[i];
          assert step(polled[i + 1], from + (i + 1)).raised.Some?;
        } else {
          forall i | 0 <= i < |polled|
            ensures step(polled[i], from + i).raised.None?
          {
            if i > 0 {
              assert polled[i] == tl[i - 1];
              assert from + i == from + 1 + (i - 1);
            }
          }
        }
      }
    }
  }

  /**
   * Over any run of well-shaped checks: without an exception there is one check_alerts call
   * and one sleep per device checked; with one, the run ends right at the failing
   * check_alerts call, with one sleep fewer than checks.
   */
  lemma {:induction false} RunChecksCounts(step: (Device, nat) -> Step, polled: seq<Device>, from: nat)
    requires WellShaped(step)
    ensures var r := RunChecks(step, polled, from);
      && (r.raised.None? ==> Count(r.events, IsCheck) == |polled| && Count(r.events, IsSleep) == |polled|)
      && (r.raised.Some? ==>
            && 1 <= Count(r.events, IsCheck) <= |polled|
            && Count(r.events, IsSleep) == Count(r.events, IsCheck) - 1
            && r.events[|r.events| - 1].CheckAlerts?)
  {
    var r := RunChecks(step, polled, from);
    if polled != [] {
      var s := step(polled[0], from);
      assert StepShape(s, polled[0]);
      if s.raised.None? {
        var rest := RunChecks(step, polled[1..], from + 1);
        RunChecksCounts(step, polled[1..], from + 1);
        assert r.events == s.events + rest.events;
        CountAppend(s.events, rest.events, IsCheck);
        CountAppend(s.events, rest.events, IsSleep);
        if rest.raised.Some? {
          assert r.events[|r.events| - 1] == rest.events[|rest.events| - 1];
        }
      }
    }
  }

  /**
   * pollDevices returns normally only after 601 full passes: one check_alerts call and one
   * sleep for every device in every pass.
   */
  lemma PollRunPasses(devs: map<int, Device>, order: seq<int>, polls: nat -> Poll)
    requires IsOrder(order, devs)
    ensures var r := PollRun(devs, order, polls);
      r.raised.None? ==>
        && Count(r.events, IsCheck) == Passes * |devs|
        && Count(r.events, IsSleep) == Passes * |devs|
  {
    CheckerShaped(devs, polls);
    RunChecksCounts(Checker(devs, polls), Schedule(InOrder(devs, order), Passes), 0);
    OrderSize(order, devs);
  }

  /** The n-th check's answers carry an alert that names no registered device. */
  ghost predicate Unregistered(devs: map<int, Device>, p: Poll)
  {
    p.hit && p.alert.Some? && Lookup(devs, p.alert.value.doorbotId).None?
  }

  /** Any run of pollDevices' checks raises exactly when one of its checks names an unregistered device. */
  lemma CheckerRaises(devs: map<int, Device>, polls: nat -> Poll, polled: seq<Device>)
    ensures RunChecks(Checker(devs, polls), polled, 0).raised.Some? <==>
      exists n :: 0 <= n < |polled| && Unregistered(devs, polls(n))
  {
    var step := Checker(devs, polls);
    RunChecksRaises(step, polled, 0);
    forall n | 0 <= n < |polled|
      ensures step(polled[n], 0 + n).raised.Some? <==> Unregistered(devs, polls(n))
    {
      CheckStepCases(devs, polled[n], polls(n));
    }
  }

  /**
   * pollDevices raises KeyError exactly when one of its 601 * |devs| checks reports an alert
   * naming a device the registry lacks.
   */
  lemma PollRunRaises(devs: map<int, Device>, order: seq<int>, polls: nat -> Poll)
    requires IsOrder(order, devs)
    ensures PollRun(devs, order, polls).raised.Some? <==>
      exists n :: 0 <= n < Passes * |devs| && Unregistered(devs, polls(n))
  {
    OrderSize(order, devs);
    CheckerRaises(devs, polls, Schedule(InOrder(devs, order), Passes));
  }

  /** An iteration order lists as many keys as the registry holds. */
  lemma OrderSize(order: seq<int>, devs: map<int, Device>)
    requires IsOrder(order, devs)
    ensures |order| == |devs|
  {
    var ks := set k | k in order;
    assert forall k :: k in ks <==> k in devs.Keys;
    assert ks == devs.Keys;
    DistinctCard(order);
  }

  /** A sequence without repetitions has as many distinct elements as entries. */
  lemma {:induction false} DistinctCard(s: seq<int>)
    requires forall i, j :: 0 <= i < j < |s| ==> s[i] != s[j]
    ensures |set k | k in s| == |s|
  {
    if s != [] {
      var t := s[1..];
      DistinctCard(t);
      assert (set k | k in s) == (set k | k in t) + {s[0]};
      assert s[0] !in t;
    }
  }

  /** Passes can be split: n passes are i passes followed by n - i more. */
  lemma {:induction false} ScheduleSplit(ds: seq<Device>, i: nat, n: nat)
    requires i <= n
    ensures Schedule(ds, n) == Schedule(ds, i) + Schedule(ds, n - i)
  {
    if i < n {
      ScheduleSplit(ds, i, n - 1);
      assert Schedule(ds, n - i) == Schedule(ds, n - 1 - i) + ds;
    } else {
      assert Schedule(ds, 0) == [];
    }
  }

  /**
   * The check at position j of a run whose first j checks did not raise: the run up to it is
   * extended by that check's events, and when that check raises the whole run ends right there.
   */
  lemma RunChecksNext(step: (Device, nat) -> Step, ds: seq<Device>, j: nat, from: nat)
    requires j < |ds|
    requires RunChecks(step, ds[..j], from).raised.None?
    ensures var s := step(ds[j], from + j);
      && RunChecks(step, ds[..j + 1], from) == Step(RunChecks(step, ds[..j], from).events + s.events, s.raised)
      && (s.raised.Some? ==> RunChecks(step, ds, from) == RunChecks(step, ds[..j + 1], from))
  {
    var s := step(ds[j], from + j);
    assert ds[..j + 1] == ds[..j] + [ds[j]];
    RunChecksAppend(step, ds[..j], [ds[j]], from);
    assert RunChecks(step, [ds[j]], from + j) == if s.raised.Some? then s else Step(s.events + [], None);
    assert s.events + [] == s.events;
    if s.raised.Some? {
      var b := ds[j..];
      assert ds == ds[..j] + b;
      RunChecksAppend(step, ds[..j], b, from);
      assert b[0] == ds[j];
    }
  }

  /**
   * One more pass after i passes that did not raise: the run of i + 1 passes is the earlier
   * run followed by that pass, and a pass that raises ends every longer run there too.
   */
  lemma PassAppend(step: (Device, nat) -> Step, ds: seq<Device>, i: nat, n: nat)
    requires i < n
    requires RunChecks(step, Schedule(ds, i), 0).raised.None?
    ensures var done := RunChecks(step, Schedule(ds, i), 0);
      var pass := RunChecks(step, ds, |Schedule(ds, i)|);
      && RunChecks(step, Schedule(ds, i + 1), 0) == Step(done.events + pass.events, pass.raised)
      && (pass.raised.Some? ==> RunChecks(step, Schedule(ds, n), 0) == Step(done.events + pass.events, pass.raised))
  {
    RunChecksAppend(step, Schedule(ds, i), ds, 0);
    assert Schedule(ds, i + 1) == Schedule(ds, i) + ds;
    ScheduleSplit(ds, i + 1, n);
    RunChecksAppend(step, Schedule(ds, i + 1), Schedule(ds, n - (i + 1)), 0);
  }
}
