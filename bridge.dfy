/**
 * The script itself: the shared FHEM connection `fh` and the calls on Ring devices, kept as
 * one append-only trace, and the routines of ring.py as methods that append to it step by
 * step, each proved to append exactly what its specification function says.
 */
module RingFhem {
  import opened Wrappers
  import opened Fhem
  import opened Trace
  import opened Devices
  import opened Polling
  import opened Registry
  import opened Supervisor
  import opened Service

  lemma Concat3(t: seq<Event>, a: seq<Event>, b: seq<Event>)
    ensures t + a + b == t + (a + b)
  {
  }

  lemma AppendSix(t: seq<Event>, e1: Event, e2: Event, e3: Event, e4: Event, e5: Event, e6: Event)
    ensures t + [e1] + [e2] + [e3] + [e4] + [e5] + [e6] == t + [e1, e2, e3, e4, e5, e6]
  {
  }

  lemma Concat4(t: seq<Event>, a: seq<Event>, b: seq<Event>, c: seq<Event>)
    ensures t + a + b + c == t + (a + b + c)
  {
  }

  class Bridge {
    /** Everything sent to FHEM and asked of the Ring library so far, oldest first. */
    var trace: seq<Event>

    constructor ()
      ensures trace == []
    {
      trace := [];
    }

    /** sendFhem: one command line over the telnet connection. */
    method SendFhem(cmd: string)
      modifies this
      ensures trace == old(trace) + [Send(cmd)]
    {
      trace := trace + [Send(cmd)];
    }

    /**
     * A step other than a command, recorded: a call on the Ring library (its reply, if any,
     * is an input of the caller), a `time.sleep`, or the retry shell's attempt marker.
     */
    method Call(e: Event)
      requires !e.Send?
      modifies this
      ensures trace == old(trace) + [e]
    {
      trace := trace + [e];
    }

    /** getDeviceInfo(dev): refresh, then twelve readings. */
    method GetDeviceInfo(dev: Device)
      modifies this
      ensures trace == old(trace) + SnapshotEvents(dev)
    {
      Call(Update(dev.id));
      SendFhem(SrRing(Reading("account", IntString(dev.accountId)), dev));
      SendFhem(SrRing(Reading("address", dev.address), dev));
      SendFhem(SrRing(Reading("family", dev.family), dev));
      SendFhem(SrRing(Reading("id", IntString(dev.id)), dev));
      SendFhem(SrRing(Reading("name", dev.name), dev));
      SendFhem(SrRing(Reading("timezone", dev.timezone), dev));
      AppendSix(old(trace) + [Update(dev.id)],
        Send(SrRing(Reading("account", IntString(dev.accountId)), dev)),
        Send(SrRing(Reading("address", dev.address), dev)),
        Send(SrRing(Reading("family", dev.family), dev)),
        Send(SrRing(Reading("id", IntString(dev.id)), dev)),
        Send(SrRing(Reading("name", dev.name), dev)),
        Send(SrRing(Reading("timezone", dev.timezone), dev)));
      Concat3(old(trace), [Update(dev.id)], SnapshotFirst(dev)[1..]);
      ghost var mark := trace;
      SendFhem(SrRing(Reading("doorbellType", dev.doorbellType), dev));
      SendFhem(SrRing(Reading("battery", dev.battery), dev));
      SendFhem(SrRing(Reading("ringVolume", dev.volume), dev));
      SendFhem(SrRing(Reading("connectionStatus", dev.connectionStatus), dev));
      SendFhem(SrRing(Reading("WifiName", dev.wifiName), dev));
      SendFhem(SrRing(Reading("WifiRSSI", dev.wifiRssi), dev));
      AppendSix(mark,
        Send(SrRing(Reading("doorbellType", dev.doorbellType), dev)),
        Send(SrRing(Reading("battery", dev.battery), dev)),
        Send(SrRing(Reading("ringVolume", dev.volume), dev)),
        Send(SrRing(Reading("connectionStatus", dev.connectionStatus), dev)),
        Send(SrRing(Reading("WifiName", dev.wifiName), dev)),
        Send(SrRing(Reading("WifiRSSI", dev.wifiRssi), dev)));
      SnapshotListed(dev);
      Concat3(old(trace), SnapshotFirst(dev), SnapshotSecond(dev));
    }

    /** The five header readings alertDevice publishes for every alert. */
    method PublishAlertHeader(dev: Device, alert: Alert)
      modifies this
      ensures trace == old(trace) + HeaderEvents(dev, alert)
    {
      SendFhem(SrRing(Reading("lastAlertDeviceID", IntString(dev.id)), dev));
      SendFhem(SrRing(Reading("lastAlertDeviceAccountID", IntString(dev.accountId)), dev));
      SendFhem(SrRing(Reading("lastAlertDeviceName", dev.name), dev));
      SendFhem(SrRing(Reading("lastAlertSipTo", PyStr(alert.sipTo)), dev));
      SendFhem(SrRing(Reading("lastAlertSipToken", PyStr(alert.sipToken)), dev));
      HeaderListed(dev, alert);
    }

    /**
     * The body shared by the `ding` and `motion` branches of alertDevice, which differ only
     * in the constants of `b`: the `set` event, `lastAlertType`, the history call and, when
     * the history is not empty, the download of its first entry and the video reading.
     */
    method PublishKind(dev: Device, b: Branch, newest: Option<int>)
      modifies this
      ensures trace == old(trace) + BranchEvents(dev, b, newest)
    {
      SendFhem(SetRing(b.setEvent, dev));
      SendFhem(SrRing(Reading("lastAlertType", b.setEvent), dev));
      Call(History(dev.id, HistoryLimit, b.kind));
      if newest.Some? {
        Call(Download(dev.id, newest.value, FhemPath + b.file, true));
        SendFhem(SrRing(Reading(b.videoReading, FhemPath + b.file), dev));
      }
    }

    /**
     * alertDevice(dev, alert). `newest` is the id of `his[0]` (None when `his` is empty),
     * `recordingId` is `dev.last_recording_id` as read at the end of the routine, and
     * `captureUrl` is `str()` of what `recording_url` returns for it.
     */
    method AlertDevice(dev: Device, alert: Alert, newest: Option<int>, recordingId: int, captureUrl: string)
      modifies this
      ensures trace == old(trace) + AlertEvents(dev, alert, newest, recordingId, captureUrl)
    {
      PublishAlertHeader(dev, alert);
      ghost var afterHeader := trace;
      if alert.kind == Some("ding") {
        PublishKind(dev, Branch("ding", "ring", "last_ding_video.mp4", "lastDingVideo"), newest);
      } else if alert.kind == Some("motion") {
        PublishKind(dev, Branch("motion", "motion", "last_motion_video.mp4", "lastMotionVideo"), newest);
      }
      ghost var afterKind := trace;
      assert afterKind == afterHeader + KindEvents(dev, alert.kind, newest);
      Call(RecordingUrl(dev.id, recordingId));
      SendFhem(SrRing(Reading("lastCaptureURL", captureUrl), dev));
      Concat4(old(trace), HeaderEvents(dev, alert), KindEvents(dev, alert.kind, newest), CaptureEvents(dev, recordingId, captureUrl));
    }
  
    /**
     * The body of pollDevices' inner `for`, for one device: check it for alerts; when the
     * check is true and the alert truthy, resolve `doorbot_id` in the registry (a missing key
     * raises KeyError, returned as `raised`, and ends the step) and run alertDevice on the
     * device found; then sleep. `p` holds the library's answers for this check.
     */
    method CheckDevice(devs: map<int, Device>, pollDevice: Device, p: Poll) returns (raised: Option<Failure>)
      modifies this
      ensures trace == old(trace) + CheckStep(devs, pollDevice, p).events
      ensures raised == CheckStep(devs, pollDevice, p).raised
    {
      Call(CheckAlerts(pollDevice.id));
      ghost var handled: seq<Event> := [];
      if p.hit && p.alert.Some? {
        var key := p.alert.value.doorbotId;
        if !(key.Some? && key.value in devs) {
          raised := Some(KeyError(key));
          return;
        }
        AlertDevice(devs[key.value], p.alert.value, p.newest, p.recordingId, p.captureUrl);
        handled := AlertEvents(devs[key.value], p.alert.value, p.newest, p.recordingId, p.captureUrl);
      }
      Call(Sleep(PollSeconds));
      Concat4(old(trace), [CheckAlerts(pollDevice.id)], handled, [Sleep(PollSeconds)]);
      raised := None;
    }

    /**
     * One pass of pollDevices' inner `for k, poll_device in devs.items()`: each device in
     * turn, its check numbered from `from` on; a KeyError ends the pass and is returned.
     */
    method PollPass(devs: map<int, Device>, order: seq<int>, polls: nat -> Poll, from: nat)
      returns (raised: Option<Failure>)
      requires IsOrder(order, devs)
      modifies this
      ensures trace == old(trace) + RunChecks(Checker(devs, polls), InOrder(devs, order), from).events
      ensures raised == RunChecks(Checker(devs, polls), InOrder(devs, order), from).raised
    {
      ghost var ds := InOrder(devs, order);
      ghost var step := Checker(devs, polls);
      var n := from;
      for j := 0 to |order|
        invariant n == from + j
        invariant RunChecks(step, ds[..j], from).raised.None?
        invariant trace == old(trace) + RunChecks(step, ds[..j], from).events
      {
        var pollDevice := devs[order[j]];
        ghost var checked := CheckStep(devs, pollDevice, polls(n));
        assert step(ds[j], from + j) == checked;
        ghost var done := RunChecks(step, ds[..j], from);
        RunChecksNext(step, ds, j, from);
        var failure := CheckDevice(devs, pollDevice, polls(n));
        Concat3(old(trace), done.events, checked.events);
        if failure.Some? {
          raised := failure;
          return;
        }
        n := n + 1;
      }
      assert ds[..|order|] == ds;
      raised := None;
    }

    /**
     * pollDevices(): pass after pass over `devs.items()` (`order` is the order the dict yields
     * its keys); it returns after the 601st pass. `polls(n)` are the library's answers at the
     * n-th check. `raised` is the KeyError the lookup raises for an alert naming no
     * registered device; the run stops there.
     */
    method PollDevices(devs: map<int, Device>, order: seq<int>, polls: nat -> Poll)
      returns (raised: Option<Failure>)
      requires IsOrder(order, devs)
      modifies this
      ensures trace == old(trace) + PollRun(devs, order, polls).events
      ensures raised == PollRun(devs, order, polls).raised
    {
      ghost var ds := InOrder(devs, order);
      ghost var step := Checker(devs, polls);
      var i := 0;
      var n := 0;
      while true
        invariant 0 <= i < Passes
        invariant n == |Schedule(ds, i)|
        invariant RunChecks(step, Schedule(ds, i), 0).raised.None?
        invariant trace == old(trace) + RunChecks(step, Schedule(ds, i), 0).events
        decreases Passes - i
      {
        ghost var done := RunChecks(step, Schedule(ds, i), 0);
        var failure := PollPass(devs, order, polls, n);
        ghost var pass := RunChecks(step, ds, n);
        PassAppend(step, ds, i, Passes);
        Concat3(old(trace), done.events, pass.events);
        if failure.Some? {
          raised := failure;
          return;
        }
        n := n + |order|;
        i := i + 1;
        if i > 600 {
          break;
        }
      }
      raised := None;
    }

    /** `for k, d in devs.items(): getDeviceInfo(d)`. */
    method PublishAll(devs: map<int, Device>, order: seq<int>)
      requires IsOrder(order, devs)
      modifies this
      ensures trace == old(trace) + PublishEvents(InOrder(devs, order))
    {
      ghost var ds := InOrder(devs, order);
      for j := 0 to |order|
        invariant trace == old(trace) + PublishEvents(ds[..j])
      {
        assert ds[..j + 1][..j] == ds[..j];
        assert PublishEvents(ds[..j + 1]) == PublishEvents(ds[..j]) + SnapshotEvents(ds[j]);
        GetDeviceInfo(devs[order[j]]);
        Concat3(old(trace), PublishEvents(ds[..j]), SnapshotEvents(ds[j]));
      }
      assert ds[..|order|] == ds;
    }

    /**
     * One turn of the attempt's `while 1`: publish every device, then pollDevices(). The
     * dict holds the library's device objects, which `update()` refreshes in place, so this
     * turn's snapshots and alerts see the records `t.records` gives.
     */
    method Round(devs: map<int, Device>, order: seq<int>, t: Turn)
      returns (raised: Option<Failure>)
      requires IsOrder(order, devs)
      modifies this
      ensures trace == old(trace) + RoundRun(devs, order, t).events
      ensures raised == RoundRun(devs, order, t).raised
    {
      var cur := Refreshed(devs, t.records);
      RefreshedOrder(order, devs, t.records);
      PublishAll(cur, order);
      raised := PollDevices(cur, order, t.polls);
      Concat3(old(trace), PublishEvents(InOrder(cur, order)), PollRun(cur, order, t.polls).events);
    }

    /**
     * The body of the shell's `try`: `while 1` over rounds, observed for `rounds` turns, round
     * r getting the replies `turns(r)`; the first exception ends the attempt.
     */
    method RunAttempt(devs: map<int, Device>, order: seq<int>, turns: nat -> Turn, rounds: nat)
      returns (raised: Option<Failure>)
      requires IsOrder(order, devs)
      modifies this
      ensures trace == old(trace) + AttemptRun(devs, order, turns, rounds).events
      ensures raised == AttemptRun(devs, order, turns, rounds).raised
    {
      for r := 0 to rounds
        invariant AttemptRun(devs, order, turns, r).raised.None?
        invariant trace == old(trace) + AttemptRun(devs, order, turns, r).events
      {
        ghost var done := AttemptRun(devs, order, turns, r);
        ghost var round := RoundRun(devs, order, turns(r));
        AttemptNext(devs, order, turns, r);
        raised := Round(devs, order, turns(r));
        Concat3(old(trace), done.events, round.events);
        if raised.Some? {
          AttemptStops(devs, order, turns, r + 1, rounds);
          return;
        }
      }
      raised := None;
    }

    /** The shell's `try` for attempt `count`: mark the attempt, then run its rounds. */
    method TryAttempt(devs: map<int, Device>, order: seq<int>, turns: nat -> Turn, rounds: nat, count: nat)
      returns (raised: Option<Failure>)
      requires IsOrder(order, devs)
      modifies this
      ensures trace == old(trace) + ([Attempt(count)] + AttemptRun(devs, order, turns, rounds).events)
      ensures raised == AttemptRun(devs, order, turns, rounds).raised
    {
      Call(Attempt(count));
      raised := RunAttempt(devs, order, turns, rounds);
      Concat3(old(trace), [Attempt(count)], AttemptRun(devs, order, turns, rounds).events);
    }

    /**
     * The retry shell: `count` from 1, run attempt `count`; when it raises, sleep 5 seconds,
     * re-raise when `count == 5`, else count on. Attempt k gets the replies `replies(k)`; one
     * that has not raised within its `rounds` turns is still serving.
     */
    method Retry(devs: map<int, Device>, order: seq<int>, replies: nat -> nat -> Turn, rounds: nat)
      returns (outcome: Outcome)
      requires IsOrder(order, devs)
      modifies this
      ensures outcome == ServeRun(devs, order, replies, rounds).0
      ensures trace == old(trace) + ServeRun(devs, order, replies, rounds).1
    {
      ghost var attempts := Attempts(devs, order, replies, rounds);
      ghost var total := ServeFrom(attempts, 1);
      var count := 1;
      while count < 6
        invariant 1 <= count <= MaxAttempts
        invariant ServeFrom(attempts, count).0 == total.0
        invariant trace + ServeFrom(attempts, count).1 == old(trace) + total.1
        decreases 6 - count
      {
        ghost var mark := trace;
        ghost var rest := ServeFrom(attempts, count);
        ghost var tried := [Attempt(count)] + attempts(count).events;
        var raised := TryAttempt(devs, order, replies(count), rounds, count);
        assert attempts(count) == AttemptRun(devs, order, replies(count), rounds);
        if raised.None? {
          assert rest == (Serving(count), tried);
          outcome := Serving(count);
          return;
        }
        Call(Sleep(BackoffSeconds));
        Concat3(mark, tried, [Sleep(BackoffSeconds)]);
        if count == 5 {
          assert rest == (Fatal, tried + [Sleep(BackoffSeconds)]);
          outcome := Fatal;
          return;
        }
        ghost var next := ServeFrom(attempts, count + 1);
        assert rest == (next.0, tried + [Sleep(BackoffSeconds)] + next.1);
        Concat3(mark, tried + [Sleep(BackoffSeconds)], next.1);
        count := count + 1;
      }
    }

    /**
     * The script's top level: the registry is gathered once, before the retry shell, so every
     * attempt works on the devices found at start-up, whose records `update()` refreshes in
     * every round; `order` is the order `devs.items()` yields their keys.
     */
    method Start(stickupCams: seq<Device>, doorbells: seq<Device>, order: seq<int>,
                 replies: nat -> nat -> Turn, rounds: nat)
      returns (devs: map<int, Device>, outcome: Outcome)
      requires IsOrder(order, RegistryOf(stickupCams + doorbells))
      modifies this
      ensures devs == RegistryOf(stickupCams + doorbells)
      ensures outcome == ServeRun(devs, order, replies, rounds).0
      ensures trace == old(trace) + ServeRun(devs, order, replies, rounds).1
    {
      var pollDevice;
      devs, pollDevice := GatherDevices(stickupCams, doorbells);
      outcome := Retry(devs, order, replies, rounds);
    }
  }
}
