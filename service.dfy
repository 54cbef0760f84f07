/**
 * The main loop under the retry shell: an attempt repeats rounds (publish every device, then
 * pollDevices) until one raises, and the shell counts the attempts that end that way.
 */
module Service {
  import opened Wrappers
  import opened Trace
  import opened Devices
  import opened Polling
  import opened Supervisor

  /**
   * The library's replies during one turn of the attempt's `while 1`: the record `update()`
   * leaves behind for the device registered under each key, and the answers to the checks
   * of that turn's pollDevices().
   */
  datatype Turn = Turn(records: int -> Device, polls: nat -> Poll)

  /**
   * The registry after every device's `update()`: the same keys, each holding the refreshed
   * record. The dict holds the device objects themselves, so the poll loop and alertDevice
   * see these records too.
   */
  function Refreshed(devs: map<int, Device>, records: int -> Device): (cur: map<int, Device>)
    ensures cur.Keys == devs.Keys
    ensures forall k :: k in cur ==> cur[k] == records(k)
  {
    map k | k in devs :: records(k)
  }

  /** Refreshing keeps the iteration order and the number of devices. */
  lemma RefreshedOrder(order: seq<int>, devs: map<int, Device>, records: int -> Device)
    requires IsOrder(order, devs)
    ensures IsOrder(order, Refreshed(devs, records))
    ensures |Refreshed(devs, records)| == |devs|
  {
    assert Refreshed(devs, records).Keys == devs.Keys;
  }

  /** One turn of the attempt's `while 1`: every snapshot of the refreshed records, then pollDevices(). */
  function RoundRun(devs: map<int, Device>, order: seq<int>, t: Turn): Step
    requires IsOrder(order, devs)
  {
    RefreshedOrder(order, devs, t.records);
    var cur := Refreshed(devs, t.records);
    var poll := PollRun(cur, order, t.polls);
    Step(PublishEvents(InOrder(cur, order)) + poll.events, poll.raised)
  }

  /**
   * The first `rounds` turns of one attempt, round r getting the replies `turns(r)`; the
   * attempt stops at the first round that raises.
   */
  function AttemptRun(devs: map<int, Device>, order: seq<int>, turns: nat -> Turn, rounds: nat): Step
    requires IsOrder(order, devs)
  {
    if rounds == 0 then Step([], None)
    else
      var done := AttemptRun(devs, order, turns, rounds - 1);
      if done.raised.Some? then done
      else
        var round := RoundRun(devs, order, turns(rounds - 1));
        Step(done.events + round.events, round.raised)
  }

  /** One more turn of an attempt that has not raised yet. */
  lemma AttemptNext(devs: map<int, Device>, order: seq<int>, turns: nat -> Turn, r: nat)
    requires IsOrder(order, devs)
    requires AttemptRun(devs, order, turns, r).raised.None?
    ensures var round := RoundRun(devs, order, turns(r));
      AttemptRun(devs, order, turns, r + 1) == Step(AttemptRun(devs, order, turns, r).events + round.events, round.raised)
  {
  }

  /** Once a turn has raised, later turns add nothing: the attempt is over. */
  lemma {:induction false} AttemptStops(devs: map<int, Device>, order: seq<int>, turns: nat -> Turn, r: nat, rounds: nat)
    requires IsOrder(order, devs)
    requires r <= rounds
    requires AttemptRun(devs, order, turns, r).raised.Some?
    ensures AttemptRun(devs, order, turns, rounds) == AttemptRun(devs, order, turns, r)
    decreases rounds - r
  {
    if r < rounds {
      AttemptStops(devs, order, turns, r, rounds - 1);
    }
  }

  /** Attempt k, observed for `rounds` turns with the replies `replies(k)`. */
  function Attempts(devs: map<int, Device>, order: seq<int>, replies: nat -> nat -> Turn, rounds: nat): nat -> Step
    requires IsOrder(order, devs)
  {
    (k: nat) => AttemptRun(devs, order, replies(k), rounds)
  }

  /**
   * The retry shell from attempt `count` on, `attempts(k)` being what attempt k does. An
   * attempt that has not raised is still serving; one that raised sleeps 5 seconds and
   * either re-raises (when `count` is 5) or makes way for the next attempt.
   */
  function ServeFrom(attempts: nat -> Step, count: nat): (Outcome, seq<Event>)
    requires 1 <= count <= MaxAttempts
    decreases MaxAttempts - count
  {
    var tried := [Attempt(count)] + attempts(count).events;
    if attempts(count).raised.None? then (Serving(count), tried)
    else if count == MaxAttempts then (Fatal, tried + [Sleep(BackoffSeconds)])
    else
      var rest := ServeFrom(attempts, count + 1);
      (rest.0, tried + [Sleep(BackoffSeconds)] + rest.1)
  }

  /** The whole shell over the script's attempts, starting with `count = 1`. */
  function ServeRun(devs: map<int, Device>, order: seq<int>, replies: nat -> nat -> Turn, rounds: nat): (Outcome, seq<Event>)
    requires IsOrder(order, devs)
  {
    ServeFrom(Attempts(devs, order, replies, rounds), 1)
  }

  /** Some check of a poll run reports an alert for a device the registry lacks. */
  ghost predicate StrayAlert(devs: map<int, Device>, polls: nat -> Poll)
  {
    exists n :: 0 <= n < Passes * |devs| && Unregistered(devs, polls(n))
  }

  /** Refreshing the records registers no device and drops none, so no alert changes sides. */
  lemma StrayRefreshed(devs: map<int, Device>, records: int -> Device, polls: nat -> Poll)
    ensures StrayAlert(Refreshed(devs, records), polls) <==> StrayAlert(devs, polls)
  {
    var cur := Refreshed(devs, records);
    assert |cur| == |devs| by { assert cur.Keys == devs.Keys; }
    forall n | 0 <= n
      ensures Unregistered(cur, polls(n)) <==> Unregistered(devs, polls(n))
    {
    }
  }

  /**
   * A round first publishes the records `update()` left, in dict order, and raises exactly
   * when its poll run does: when one of its checks reports an alert for a device the
   * registry lacks.
   */
  lemma RoundRaises(devs: map<int, Device>, order: seq<int>, t: Turn)
    requires IsOrder(order, devs)
    ensures var r := RoundRun(devs, order, t);
      && r.events[..13 * |order|] == PublishEvents(InOrder(Refreshed(devs, t.records), order))
      && (r.raised.Some? <==> StrayAlert(devs, t.polls))
  {
    var cur := Refreshed(devs, t.records);
    RefreshedOrder(order, devs, t.records);
    OrderSize(order, cur);
    PollRunRaises(cur, order, t.polls);
    StrayRefreshed(devs, t.records, t.polls);
    var r := RoundRun(devs, order, t);
    assert r.events == PublishEvents(InOrder(cur, order)) + PollRun(cur, order, t.polls).events;
  }

  /**
   * The k-th snapshot of a round is that of the k-th key's record as `update()` left it in
   * this turn, not as the device was first registered.
   */
  lemma RoundSnapshotAt(devs: map<int, Device>, order: seq<int>, t: Turn, k: nat)
    requires IsOrder(order, devs)
    requires k < |order|
    ensures RoundRun(devs, order, t).events[13 * k .. 13 * k + 13] == SnapshotEvents(t.records(order[k]))
  {
    var cur := Refreshed(devs, t.records);
    RefreshedOrder(order, devs, t.records);
    var ds := InOrder(cur, order);
    PublishAt(ds, k);
    RoundRaises(devs, order, t);
    var r := RoundRun(devs, order, t);
    assert r.events[13 * k .. 13 * k + 13] == r.events[..13 * |order|][13 * k .. 13 * k + 13];
  }

  /**
   * An attempt ends with a KeyError within its turns exactly when, in one of them, a check
   * reports an alert for a device the registry lacks.
   */
  lemma {:induction false} AttemptRaises(devs: map<int, Device>, order: seq<int>, turns: nat -> Turn, rounds: nat)
    requires IsOrder(order, devs)
    ensures AttemptRun(devs, order, turns, rounds).raised.Some? <==>
      exists r :: 0 <= r < rounds && StrayAlert(devs, turns(r).polls)
  {
    if rounds > 0 {
      var r := rounds - 1;
      AttemptRaises(devs, order, turns, r);
      StraySplit(devs, turns, r);
      if AttemptRun(devs, order, turns, r).raised.Some? {
        AttemptStops(devs, order, turns, r, rounds);
      } else {
        AttemptNext(devs, order, turns, r);
        RoundRaises(devs, order, turns(r));
      }
    }
  }

  /** A stray alert in the first r + 1 turns is one in the first r, or one in turn r. */
  lemma StraySplit(devs: map<int, Device>, turns: nat -> Turn, r: nat)
    ensures (exists i :: 0 <= i < r + 1 && StrayAlert(devs, turns(i).polls)) <==>
      (exists i :: 0 <= i < r && StrayAlert(devs, turns(i).polls)) || StrayAlert(devs, turns(r).polls)
  {
  }


  /**
   * The shell over any attempts ends as the abstract shell does when `fails(k)` says whether
   * attempt k raised.
   */
  lemma {:induction false} ServeAsSupervise(attempts: nat -> Step, fails: nat -> bool, count: nat)
    requires 1 <= count <= MaxAttempts
    requires forall k :: 1 <= k <= MaxAttempts ==> (fails(k) <==> attempts(k).raised.Some?)
    ensures ServeFrom(attempts, count).0 == SuperviseFrom(fails, count).0
    decreases MaxAttempts - count
  {
    if count < MaxAttempts {
      ServeAsSupervise(attempts, fails, count + 1);
    }
  }

  /** `es` ends with `tail`. */
  ghost predicate EndsWith(es: seq<Event>, tail: seq<Event>)
  {
    |tail| <= |es| && es[|es| - |tail|..] == tail
  }

  /** Whatever comes before a trace does not change how it ends. */
  lemma EndsWithAfter(head: seq<Event>, es: seq<Event>, tail: seq<Event>)
    requires EndsWith(es, tail)
    ensures EndsWith(head + es, tail)
  {
    assert (head + es)[|head + es| - |tail|..] == es[|es| - |tail|..];
  }

  /**
   * How the shell's trace ends: a fatal shell's last event is the back-off sleep before the
   * re-raise; a serving one ends with the marker and the work of the attempt it serves in.
   */
  lemma {:induction false} ServeLast(attempts: nat -> Step, count: nat)
    requires 1 <= count <= MaxAttempts
    ensures var (o, es) := ServeFrom(attempts, count);
      && (o == Fatal ==> EndsWith(es, [Sleep(BackoffSeconds)]))
      && (o.Serving? ==> EndsWith(es, [Attempt(o.attempt)] + attempts(o.attempt).events))
    decreases MaxAttempts - count
  {
    var tried := [Attempt(count)] + attempts(count).events;
    if attempts(count).raised.None? {
      assert ServeFrom(attempts, count) == (Serving(count), tried);
      assert tried[|tried| - |tried|..] == tried;
    } else if count == MaxAttempts {
      var es := tried + [Sleep(BackoffSeconds)];
      assert ServeFrom(attempts, count) == (Fatal, es);
      assert es[|es| - 1..] == [Sleep(BackoffSeconds)];
    } else {
      var rest := ServeFrom(attempts, count + 1);
      ServeLast(attempts, count + 1);
      assert ServeFrom(attempts, count) == (rest.0, (tried + [Sleep(BackoffSeconds)]) + rest.1);
      if rest.0 == Fatal {
        EndsWithAfter(tried + [Sleep(BackoffSeconds)], rest.1, [Sleep(BackoffSeconds)]);
      } else if rest.0.Serving? {
        EndsWithAfter(tried + [Sleep(BackoffSeconds)], rest.1, [Attempt(rest.0.attempt)] + attempts(rest.0.attempt).events);
      }
    }
  }

  /** A step of the retry shell itself: the start of an attempt, or the 5-second back-off. */
  predicate OnBackbone(e: Event)
  {
    e.Attempt? || e == Sleep(BackoffSeconds)
  }

  /** The shell's own steps in a trace, in order: what is left once the attempts' work is dropped. */
  function Backbone(es: seq<Event>): (bs: seq<Event>)
    ensures |bs| <= |es|
    ensures forall i :: 0 <= i < |bs| ==> OnBackbone(bs[i])
  {
    if es == [] then []
    else (if OnBackbone(es[0]) then [es[0]] else []) + Backbone(es[1..])
  }

  /** The backbone of a concatenation is the concatenation of the backbones. */
  lemma {:induction false} BackboneAppend(a: seq<Event>, b: seq<Event>)
    ensures Backbone(a + b) == Backbone(a) + Backbone(b)
  {
    if a == [] {
      assert a + b == b;
    } else {
      assert (a + b)[1..] == a[1..] + b;
      BackboneAppend(a[1..], b);
    }
  }

  /** No event of `es` is a step of the shell. */
  ghost predicate Quiet(es: seq<Event>)
  {
    forall i :: 0 <= i < |es| ==> !OnBackbone(es[i])
  }

  /** A quiet trace has an empty backbone. */
  lemma {:induction false} QuietBackbone(es: seq<Event>)
    requires Quiet(es)
    ensures Backbone(es) == []
  {
    if es != [] {
      assert forall i :: 0 <= i < |es| - 1 ==> es[1..][i] == es[i + 1];
      QuietBackbone(es[1..]);
    }
  }

  /** Two quiet traces make a quiet trace. */
  lemma QuietAppend(a: seq<Event>, b: seq<Event>)
    requires Quiet(a) && Quiet(b)
    ensures Quiet(a + b)
  {
    forall i | 0 <= i < |a + b|
      ensures !OnBackbone((a + b)[i])
    {
      if i >= |a| {
        assert (a + b)[i] == b[i - |a|];
      }
    }
  }

  /** getDeviceInfo refreshes and publishes; none of it is a step of the shell. */
  lemma QuietSnapshot(d: Device)
    ensures Quiet(SnapshotEvents(d))
  {
    var rs := Readings(d, SnapshotReadings, SnapshotValues(d));
    assert forall k :: 0 <= k < |rs| ==> rs[k].Send?;
    QuietAppend([Update(d.id)], rs);
  }

  /** The snapshots of a round contain no step of the shell. */
  lemma {:induction false} QuietPublish(ds: seq<Device>)
    ensures Quiet(PublishEvents(ds))
    decreases |ds|
  {
    if ds != [] {
      QuietPublish(ds[..|ds| - 1]);
      QuietSnapshot(ds[|ds| - 1]);
      QuietAppend(PublishEvents(ds[..|ds| - 1]), SnapshotEvents(ds[|ds| - 1]));
    }
  }

  /** alertDevice makes readings and library calls only. */
  lemma QuietAlert(d: Device, a: Alert, newest: Option<int>, recordingId: int, captureUrl: string)
    ensures Quiet(AlertEvents(d, a, newest, recordingId, captureUrl))
  {
    var hs := HeaderEvents(d, a);
    assert forall k :: 0 <= k < |hs| ==> hs[k].Send?;
    var ks := KindEvents(d, a.kind, newest);
    assert forall k :: 0 <= k < |ks| ==> ks[k].Send? || ks[k].History? || ks[k].Download?;
    QuietAppend(hs, ks);
    QuietAppend(hs + ks, CaptureEvents(d, recordingId, captureUrl));
  }

  /** A device check sleeps only the 2-second poll interval, never the shell's back-off. */
  lemma QuietCheck(devs: map<int, Device>, polled: Device, p: Poll)
    ensures Quiet(CheckStep(devs, polled, p).events)
  {
    var c := [CheckAlerts(polled.id)];
    var z := [Sleep(PollSeconds)];
    if p.hit && p.alert.Some? && Lookup(devs, p.alert.value.doorbotId).Some? {
      var t := devs[p.alert.value.doorbotId.value];
      QuietAlert(t, p.alert.value, p.newest, p.recordingId, p.captureUrl);
      var es := AlertEvents(t, p.alert.value, p.newest, p.recordingId, p.captureUrl);
      QuietAppend(c, es);
      QuietAppend(c + es, z);
    } else if !(p.hit && p.alert.Some?) {
      QuietAppend(c, z);
    }
  }

  /** A run of quiet checks is quiet. */
  lemma {:induction false} QuietChecks(step: (Device, nat) -> Step, polled: seq<Device>, from: nat)
    requires forall d, n :: Quiet(step(d, n).events)
    ensures Quiet(RunChecks(step, polled, from).events)
    decreases |polled|
  {
    if polled != [] {
      var s := step(polled[0], from);
      if s.raised.None? {
        QuietChecks(step, polled[1..], from + 1);
        QuietAppend(s.events, RunChecks(step, polled[1..], from + 1).events);
      }
    }
  }

  /** A round, snapshots and checks, contains no step of the shell. */
  lemma QuietRound(devs: map<int, Device>, order: seq<int>, t: Turn)
    requires IsOrder(order, devs)
    ensures Quiet(RoundRun(devs, order, t).events)
  {
    var cur := Refreshed(devs, t.records);
    RefreshedOrder(order, devs, t.records);
    var step := Checker(cur, t.polls);
    forall d, n
      ensures Quiet(step(d, n).events)
    {
      QuietCheck(cur, d, t.polls(n));
    }
    QuietChecks(step, Schedule(InOrder(cur, order), Passes), 0);
    QuietPublish(InOrder(cur, order));
    QuietAppend(PublishEvents(InOrder(cur, order)), PollRun(cur, order, t.polls).events);
  }

  /** An attempt's rounds contain no step of the shell. */
  lemma {:induction false} QuietAttempt(devs: map<int, Device>, order: seq<int>, turns: nat -> Turn, rounds: nat)
    requires IsOrder(order, devs)
    ensures Quiet(AttemptRun(devs, order, turns, rounds).events)
  {
    if rounds > 0 {
      var r := rounds - 1;
      QuietAttempt(devs, order, turns, r);
      if AttemptRun(devs, order, turns, r).raised.Some? {
        AttemptStops(devs, order, turns, r, rounds);
      } else {
        AttemptNext(devs, order, turns, r);
        QuietRound(devs, order, turns(r));
        QuietAppend(AttemptRun(devs, order, turns, r).events, RoundRun(devs, order, turns(r)).events);
      }
    }
  }


  /**
   * Over attempts whose work holds no step of the shell, the backbone of the shell's trace is
   * exactly the abstract shell's trace: the attempt markers and back-off sleeps, in order.
   */
  lemma {:induction false} ServeBackbone(attempts: nat -> Step, fails: nat -> bool, count: nat)
    requires 1 <= count <= MaxAttempts
    requires forall k :: 1 <= k <= MaxAttempts ==> (fails(k) <==> attempts(k).raised.Some?)
    requires forall k :: 1 <= k <= MaxAttempts ==> Backbone(attempts(k).events) == []
    ensures Backbone(ServeFrom(attempts, count).1) == SuperviseFrom(fails, count).1
    decreases MaxAttempts - count
  {
    var head := [Attempt(count)] + attempts(count).events;
    BackboneHead(count, attempts(count).events);
    if attempts(count).raised.Some? && count < MaxAttempts {
      var rest := ServeFrom(attempts, count + 1).1;
      ServeBackbone(attempts, fails, count + 1);
      BackboneAppend(head + [Sleep(BackoffSeconds)], rest);
      assert ServeFrom(attempts, count).1 == head + [Sleep(BackoffSeconds)] + rest;
    }
  }

  /** An attempt's marker, its quiet work and its back-off leave the marker and the back-off. */
  lemma BackboneHead(count: nat, work: seq<Event>)
    requires Backbone(work) == []
    ensures Backbone([Attempt(count)] + work) == [Attempt(count)]
    ensures Backbone([Attempt(count)] + work + [Sleep(BackoffSeconds)]) == [Attempt(count), Sleep(BackoffSeconds)]
  {
    BackboneOne(Attempt(count));
    BackboneOne(Sleep(BackoffSeconds));
    BackboneAppend([Attempt(count)], work);
    BackboneAppend([Attempt(count)] + work, [Sleep(BackoffSeconds)]);
  }


  /** A single event is its own backbone when it is a step of the shell, and none otherwise. */
  lemma BackboneOne(e: Event)
    ensures Backbone([e]) == if OnBackbone(e) then [e] else []
  {
    assert [e][1..] == [];
  }


  /**
   * Over any attempts: the shell is fatal exactly when attempts 1 to 5 all raise; otherwise
   * it serves in attempt k only after attempts 1 to k - 1 each raised, and attempt k has not.
   */
  lemma ServeEnds(attempts: nat -> Step)
    ensures var o := ServeFrom(attempts, 1).0;
      && (o == Fatal <==> forall k :: 1 <= k <= MaxAttempts ==> attempts(k).raised.Some?)
      && (o.Serving? ==>
            && 1 <= o.attempt <= MaxAttempts
            && attempts(o.attempt).raised.None?
            && forall k :: 1 <= k < o.attempt ==> attempts(k).raised.Some?)
  {
    var fails := (k: nat) => attempts(k).raised.Some?;
    ServeAsSupervise(attempts, fails, 1);
    FatalIffFiveFailures(fails);
    AtMostFourFailures(fails);
  }

  /**
   * The script dies exactly when each of its five attempts ends with a KeyError; otherwise
   * it serves in attempt k only after attempts 1 to k - 1 each raised, and attempt k has not.
   */
  lemma ServeOutcome(devs: map<int, Device>, order: seq<int>, replies: nat -> nat -> Turn, rounds: nat)
    requires IsOrder(order, devs)
    ensures var o := ServeRun(devs, order, replies, rounds).0;
      && (o == Fatal <==>
            forall k :: 1 <= k <= MaxAttempts ==> AttemptRun(devs, order, replies(k), rounds).raised.Some?)
      && (o.Serving? ==>
            && 1 <= o.attempt <= MaxAttempts
            && AttemptRun(devs, order, replies(o.attempt), rounds).raised.None?
            && forall k :: 1 <= k < o.attempt ==> AttemptRun(devs, order, replies(k), rounds).raised.Some?)
  {
    var attempts := Attempts(devs, order, replies, rounds);
    ServeEnds(attempts);
    assert forall k :: attempts(k) == AttemptRun(devs, order, replies(k), rounds);
  }

  /**
   * Over any attempts whose work holds no step of the shell: the backbone of the shell's trace
   * is the abstract shell's trace; a fatal shell made five attempts and slept five times, the
   * last sleep ending the trace; a serving one slept once per failed attempt and ends with
   * the work of the attempt it serves in.
   */
  lemma ServeShape(attempts: nat -> Step, fails: nat -> bool)
    requires forall k :: 1 <= k <= MaxAttempts ==> (fails(k) <==> attempts(k).raised.Some?)
    requires forall k :: 1 <= k <= MaxAttempts ==> Backbone(attempts(k).events) == []
    ensures var (o, es) := ServeFrom(attempts, 1);
      && Backbone(es) == Supervise(fails).1
      && (o == Fatal ==>
            && Count(Backbone(es), IsAttempt) == MaxAttempts
            && Count(Backbone(es), IsSleep) == MaxAttempts
            && EndsWith(es, [Sleep(BackoffSeconds)]))
      && (o.Serving? ==>
            && Count(Backbone(es), IsAttempt) == o.attempt
            && Count(Backbone(es), IsSleep) == o.attempt - 1
            && EndsWith(es, [Attempt(o.attempt)] + attempts(o.attempt).events))
  {
    ServeBackbone(attempts, fails, 1);
    ServeAsSupervise(attempts, fails, 1);
    ServeLast(attempts, 1);
    FatalIffFiveFailures(fails);
    AtMostFourFailures(fails);
  }

  /**
   * The script's trace, with each attempt's own work dropped, is the abstract shell's: an
   * attempt marker per attempt and a 5-second sleep after each failed one. A fatal run made
   * five attempts and slept five times, the last sleep just before the re-raise; a serving run
   * slept once per failed attempt before it and ends with the work of the attempt it serves in.
   */
  lemma ServeTrace(devs: map<int, Device>, order: seq<int>, replies: nat -> nat -> Turn, rounds: nat,
                   fails: nat -> bool)
    requires IsOrder(order, devs)
    requires forall k :: 1 <= k <= MaxAttempts ==>
      (fails(k) <==> AttemptRun(devs, order, replies(k), rounds).raised.Some?)
    ensures var (o, es) := ServeRun(devs, order, replies, rounds);
      && Backbone(es) == Supervise(fails).1
      && (o == Fatal ==>
            && Count(Backbone(es), IsAttempt) == MaxAttempts
            && Count(Backbone(es), IsSleep) == MaxAttempts
            && EndsWith(es, [Sleep(BackoffSeconds)]))
      && (o.Serving? ==>
            && Count(Backbone(es), IsAttempt) == o.attempt
            && Count(Backbone(es), IsSleep) == o.attempt - 1
            && EndsWith(es, [Attempt(o.attempt)] + AttemptRun(devs, order, replies(o.attempt), rounds).events))
  {
    var attempts := Attempts(devs, order, replies, rounds);
    forall k | 1 <= k <= MaxAttempts
      ensures attempts(k) == AttemptRun(devs, order, replies(k), rounds)
      ensures Backbone(attempts(k).events) == []
    {
      QuietAttempt(devs, order, replies(k), rounds);
      QuietBackbone(AttemptRun(devs, order, replies(k), rounds).events);
    }
    ServeShape(attempts, fails);
    assert ServeRun(devs, order, replies, rounds) == ServeFrom(attempts, 1);
  }
}
