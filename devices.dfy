/**
 * The device records and the two publishing routines of ring.py: getDeviceInfo (a refresh,
 * then twelve readings) and alertDevice (header readings, a branch on the alert kind, the
 * capture URL).
 */
module Devices {
  import opened Wrappers
  import opened Fhem
  import opened Trace

  /** Directory the two videos are written to (fhem_path). */
  const FhemPath := "/opt/fhem/www/ring/"
  /** The `limit` passed to history(). */
  const HistoryLimit: nat := 100

  /**
   * A Ring device as the library presents it. Attributes the script passes through `str()`
   * are held as the text `str()` gives; the two numeric ids are integers.
   */
  datatype Device = Device(
    accountId: int,
    address: string,
    family: string,
    id: int,
    name: string,
    timezone: string,
    doorbellType: string,
    battery: string,
    volume: string,
    connectionStatus: string,
    wifiName: string,
    wifiRssi: string)

  /** The alert dictionary; a missing key reads as None, as `dict.get` does. */
  datatype Alert = Alert(
    kind: Option<string>,
    doorbotId: Option<int>,
    sipTo: Option<string>,
    sipToken: Option<string>)

  /** `str()` of a value that may be None. */
  function PyStr(v: Option<string>): string
  {
    match v
    case None => "None"
    case Some(s) => s
  }

  function SetRing(payload: string, d: Device): string { Command(Set, d.name, payload) }
  function AttrRing(payload: string, d: Device): string { Command(Attr, d.name, payload) }
  function SrRing(payload: string, d: Device): string { Command(SetReading, d.name, payload) }

  /** The readings getDeviceInfo publishes, in the order it publishes them. */
  const SnapshotReadings: seq<string> := [
    "account", "address", "family", "id", "name", "timezone",
    "doorbellType", "battery", "ringVolume", "connectionStatus", "WifiName", "WifiRSSI"]

  /** The value published for each of SnapshotReadings. */
  function SnapshotValues(d: Device): (vs: seq<string>)
    ensures |vs| == |SnapshotReadings|
  {
    [IntString(d.accountId), d.address, d.family, IntString(d.id), d.name, d.timezone,
     d.doorbellType, d.battery, d.volume, d.connectionStatus, d.wifiName, d.wifiRssi]
  }

  /** One `setreading` per reading name, with the matching value, in order. */
  function Readings(d: Device, names: seq<string>, values: seq<string>): (es: seq<Event>)
    requires |names| == |values|
    ensures |es| == |names|
  {
    seq(|names|, k requires 0 <= k < |names| => Send(SrRing(Reading(names[k], values[k]), d)))
  }

  /** getDeviceInfo: refresh the device, then one `setreading` per attribute. */
  function SnapshotEvents(d: Device): seq<Event>
  {
    [Update(d.id)] + Readings(d, SnapshotReadings, SnapshotValues(d))
  }

  /** The refresh and the first six readings of getDeviceInfo, written out. */
  function SnapshotFirst(d: Device): seq<Event>
  {
    [Update(d.id)] +
    [ Send(SrRing(Reading("account", IntString(d.accountId)), d)),
      Send(SrRing(Reading("address", d.address), d)),
      Send(SrRing(Reading("family", d.family), d)),
      Send(SrRing(Reading("id", IntString(d.id)), d)),
      Send(SrRing(Reading("name", d.name), d)),
      Send(SrRing(Reading("timezone", d.timezone), d)) ]
  }

  /** The last six readings of getDeviceInfo, written out. */
  function SnapshotSecond(d: Device): seq<Event>
  {
    [ Send(SrRing(Reading("doorbellType", d.doorbellType), d)),
      Send(SrRing(Reading("battery", d.battery), d)),
      Send(SrRing(Reading("ringVolume", d.volume), d)),
      Send(SrRing(Reading("connectionStatus", d.connectionStatus), d)),
      Send(SrRing(Reading("WifiName", d.wifiName), d)),
      Send(SrRing(Reading("WifiRSSI", d.wifiRssi), d)) ]
  }

  /** SnapshotEvents is the two written-out halves, in order. */
  lemma SnapshotListed(d: Device)
    ensures SnapshotEvents(d) == SnapshotFirst(d) + SnapshotSecond(d)
  {
  }

  /** The five readings alertDevice publishes first. */
  const HeaderReadings: seq<string> := [
    "lastAlertDeviceID", "lastAlertDeviceAccountID", "lastAlertDeviceName",
    "lastAlertSipTo", "lastAlertSipToken"]

  function HeaderValues(d: Device, a: Alert): (vs: seq<string>)
    ensures |vs| == |HeaderReadings|
  {
    [IntString(d.id), IntString(d.accountId), d.name, PyStr(a.sipTo), PyStr(a.sipToken)]
  }

  function HeaderEvents(d: Device, a: Alert): seq<Event>
  {
    Readings(d, HeaderReadings, HeaderValues(d, a))
  }

  /** HeaderEvents written out reading by reading, as alertDevice sends them. */
  lemma HeaderListed(d: Device, a: Alert)
    ensures HeaderEvents(d, a) == [
      Send(SrRing(Reading("lastAlertDeviceID", IntString(d.id)), d)),
      Send(SrRing(Reading("lastAlertDeviceAccountID", IntString(d.accountId)), d)),
      Send(SrRing(Reading("lastAlertDeviceName", d.name), d)),
      Send(SrRing(Reading("lastAlertSipTo", PyStr(a.sipTo)), d)),
      Send(SrRing(Reading("lastAlertSipToken", PyStr(a.sipToken)), d))]
  {
  }

  /** What one handled kind sends: the `set` event, the video file and the video reading. */
  datatype Branch = Branch(kind: string, setEvent: string, file: string, videoReading: string)

  /** The two kinds alertDevice acts on; any other kind (or none) has no branch. */
  function BranchOf(kind: Option<string>): (b: Option<Branch>)
    ensures b.Some? <==> kind == Some("ding") || kind == Some("motion")
    ensures b.Some? ==> Some(b.value.kind) == kind
  {
    if kind == Some("ding") then Some(Branch("ding", "ring", "last_ding_video.mp4", "lastDingVideo"))
    else if kind == Some("motion") then Some(Branch("motion", "motion", "last_motion_video.mp4", "lastMotionVideo"))
    else None
  }

  /**
   * The branch of a handled kind: `set`, `lastAlertType`, the history call, and, only when
   * the history is not empty (`newest` is its first id), the download and the video reading.
   */
  function BranchEvents(d: Device, b: Branch, newest: Option<int>): seq<Event>
  {
    [ Send(SetRing(b.setEvent, d)),
      Send(SrRing(Reading("lastAlertType", b.setEvent), d)),
      History(d.id, HistoryLimit, b.kind) ]
    + (if newest.Some? then
         [ Download(d.id, newest.value, FhemPath + b.file, true),
           Send(SrRing(Reading(b.videoReading, FhemPath + b.file), d)) ]
       else [])
  }

  /**
   * The closing steps: ask for the URL of the recording `last_recording_id` names when it is
   * read, and publish it.
   */
  function CaptureEvents(d: Device, recordingId: int, captureUrl: string): seq<Event>
  {
    [RecordingUrl(d.id, recordingId), Send(SrRing(Reading("lastCaptureURL", captureUrl), d))]
  }

  /**
   * alertDevice(dev, alert), given the library's replies: `newest` is the id of the first
   * history entry (None when the history is empty), `recordingId` is the device's
   * `last_recording_id` as read after the branch, and `captureUrl` is `str()` of what
   * recording_url returns.
   */
  function AlertEvents(d: Device, a: Alert, newest: Option<int>, recordingId: int, captureUrl: string): seq<Event>
  {
    HeaderEvents(d, a) + KindEvents(d, a.kind, newest) + CaptureEvents(d, recordingId, captureUrl)
  }

  /** Every command in `es` is addressed to the FHEM device of `d`. */
  ghost predicate AddressedTo(es: seq<Event>, d: Device)
  {
    forall i :: 0 <= i < |es| && es[i].Send? ==>
      ParseCommand(es[i].cmd).Some? && ParseCommand(es[i].cmd).value.target == Target(d.name)
  }

  /** `e` sends `setreading Ring_<name> <reading> <value>` for `d`. */
  ghost predicate IsReadingOf(e: Event, d: Device, reading: string, value: string)
  {
    e.Send? && ParseCommand(e.cmd) == Some(Parsed(SetReading, Target(d.name), Reading(reading, value)))
  }


  /** The k-th event of Readings sets the k-th reading to the k-th value on `d`'s device. */
  lemma ReadingsAt(d: Device, names: seq<string>, values: seq<string>, k: nat)
    requires |names| == |values| && k < |names|
    ensures IsReadingOf(Readings(d, names, values)[k], d, names[k], values[k])
  {
    CommandRoundTrip(SetReading, d.name, Reading(names[k], values[k]));
  }

  /** Readings sends one command per reading and makes no other call. */
  lemma ReadingsOnlySend(d: Device, names: seq<string>, values: seq<string>)
    requires |names| == |values|
    ensures Count(Readings(d, names, values), IsSend) == |names|
    ensures AddressedTo(Readings(d, names, values), d)
  {
    var es := Readings(d, names, values);
    CountAllSends(es);
    forall i | 0 <= i < |es| && es[i].Send?
      ensures ParseCommand(es[i].cmd).Some? && ParseCommand(es[i].cmd).value.target == Target(d.name)
    {
      ReadingsAt(d, names, values, i);
    }
  }

  /** A trace of sends only counts every event as a send. */
  lemma {:induction false} CountAllSends(es: seq<Event>)
    requires forall i :: 0 <= i < |es| ==> es[i].Send?
    ensures Count(es, IsSend) == |es|
  {
    if es != [] {
      CountAllSends(es[1..]);
    }
  }

  /**
   * getDeviceInfo calls update() before it sends anything, then sends exactly twelve
   * readings, in the fixed order, each with the device's current value, all to its device.
   */
  lemma SnapshotOrder(d: Device)
    ensures |SnapshotEvents(d)| == 13
    ensures SnapshotEvents(d)[0] == Update(d.id)
    ensures forall k :: 0 <= k < 12 ==>
      IsReadingOf(SnapshotEvents(d)[k + 1], d, SnapshotReadings[k], SnapshotValues(d)[k])
    ensures Count(SnapshotEvents(d), IsSend) == 12
    ensures Count(SnapshotEvents(d), IsUpdate) == 1
    ensures AddressedTo(SnapshotEvents(d), d)
  {
    var rs := Readings(d, SnapshotReadings, SnapshotValues(d));
    var es := SnapshotEvents(d);
    assert es == [Update(d.id)] + rs;
    forall k | 0 <= k < 12
      ensures IsReadingOf(es[k + 1], d, SnapshotReadings[k], SnapshotValues(d)[k])
    {
      assert es[k + 1] == rs[k];
      ReadingsAt(d, SnapshotReadings, SnapshotValues(d), k);
    }
    ReadingsOnlySend(d, SnapshotReadings, SnapshotValues(d));
    CountAppend([Update(d.id)], rs, IsSend);
    CountAppend([Update(d.id)], rs, IsUpdate);
    CountNone(rs, IsUpdate);
    forall i | 0 <= i < |es| && es[i].Send?
      ensures ParseCommand(es[i].cmd).Some? && ParseCommand(es[i].cmd).value.target == Target(d.name)
    {
      assert es[i] == rs[i - 1];
    }
  }

  /** `for k, d in devs.items(): getDeviceInfo(d)`: the snapshot of every device in turn. */
  function PublishEvents(ds: seq<Device>): (es: seq<Event>)
    ensures |es| == 13 * |ds|
    decreases |ds|
  {
    if ds == [] then []
    else
      SnapshotOrder(ds[|ds| - 1]);
      PublishEvents(ds[..|ds| - 1]) + SnapshotEvents(ds[|ds| - 1])
  }

  /** The k-th block of thirteen events is the whole snapshot of the k-th device. */
  lemma {:induction false} PublishAt(ds: seq<Device>, k: nat)
    requires k < |ds|
    ensures PublishEvents(ds)[13 * k .. 13 * k + 13] == SnapshotEvents(ds[k])
    decreases |ds|
  {
    var init := ds[..|ds| - 1];
    var head := PublishEvents(init);
    assert PublishEvents(ds) == head + SnapshotEvents(ds[|ds| - 1]);
    if k < |ds| - 1 {
      PublishAt(init, k);
      assert init[k] == ds[k];
    }
  }

  /**
   * Publishing every device refreshes each once and sends twelve readings for each, and
   * nothing else.
   */
  lemma {:induction false} PublishCounts(ds: seq<Device>)
    ensures Count(PublishEvents(ds), IsUpdate) == |ds|
    ensures Count(PublishEvents(ds), IsSend) == 12 * |ds|
    decreases |ds|
  {
    if ds != [] {
      var init := ds[..|ds| - 1];
      PublishCounts(init);
      SnapshotOrder(ds[|ds| - 1]);
      CountAppend(PublishEvents(init), SnapshotEvents(ds[|ds| - 1]), IsUpdate);
      CountAppend(PublishEvents(init), SnapshotEvents(ds[|ds| - 1]), IsSend);
    }
  }

  /** The branch part of alertDevice for a given kind: empty for kinds it ignores. */
  function KindEvents(d: Device, kind: Option<string>, newest: Option<int>): seq<Event>
  {
    match BranchOf(kind)
    case None => []
    case Some(b) => BranchEvents(d, b, newest)
  }

  /**
   * alertDevice always starts with the five header readings, in order, whatever the kind,
   * and always ends by asking for the last recording's URL and publishing `lastCaptureURL`;
   * it asks for that URL exactly once.
   */
  lemma AlertFrame(d: Device, a: Alert, newest: Option<int>, recordingId: int, captureUrl: string)
    ensures var es := AlertEvents(d, a, newest, recordingId, captureUrl);
      && |es| >= 7
      && (forall k :: 0 <= k < 5 ==> IsReadingOf(es[k], d, HeaderReadings[k], HeaderValues(d, a)[k]))
      && es[|es| - 2] == RecordingUrl(d.id, recordingId)
      && IsReadingOf(es[|es| - 1], d, "lastCaptureURL", captureUrl)
      && Count(es, IsRecordingUrl) == 1
  {
    var es := AlertEvents(d, a, newest, recordingId, captureUrl);
    var h, mid, tail := HeaderEvents(d, a), KindEvents(d, a.kind, newest), CaptureEvents(d, recordingId, captureUrl);
    assert es == h + mid + tail;
    forall k | 0 <= k < 5
      ensures IsReadingOf(es[k], d, HeaderReadings[k], HeaderValues(d, a)[k])
    {
      assert es[k] == h[k];
      ReadingsAt(d, HeaderReadings, HeaderValues(d, a), k);
    }
    assert es[|es| - 1] == tail[1];
    CommandRoundTrip(SetReading, d.name, Reading("lastCaptureURL", captureUrl));
    CountThree(h, mid, tail, IsRecordingUrl);
    HeaderCalls(d, a);
    KindCalls(d, a.kind, newest);
    CaptureCalls(d, recordingId, captureUrl);
  }

  /** The branch of a handled kind, on its own: its order and what it calls. */
  lemma BranchShape(d: Device, b: Branch, newest: Option<int>)
    ensures var es := BranchEvents(d, b, newest);
      && |es| == (if newest.Some? then 5 else 3)
      && es[0].Send? && ParseCommand(es[0].cmd) == Some(Parsed(Set, Target(d.name), b.setEvent))
      && IsReadingOf(es[1], d, "lastAlertType", b.setEvent)
      && es[2] == History(d.id, HistoryLimit, b.kind)
      && Count(es, IsHistory) == 1
      && Count(es, IsDownload) == (if newest.Some? then 1 else 0)
      && (newest.Some? ==>
            && es[3] == Download(d.id, newest.value, FhemPath + b.file, true)
            && IsReadingOf(es[4], d, b.videoReading, FhemPath + b.file))
  {
    var first := [Send(SetRing(b.setEvent, d)), Send(SrRing(Reading("lastAlertType", b.setEvent), d))];
    var hist := [History(d.id, HistoryLimit, b.kind)];
    var video := if newest.Some? then
                   [Download(d.id, newest.value, FhemPath + b.file, true),
                    Send(SrRing(Reading(b.videoReading, FhemPath + b.file), d))]
                 else [];
    assert BranchEvents(d, b, newest) == first + hist + video;
    CommandRoundTrip(Set, d.name, b.setEvent);
    CommandRoundTrip(SetReading, d.name, Reading("lastAlertType", b.setEvent));
    CommandRoundTrip(SetReading, d.name, Reading(b.videoReading, FhemPath + b.file));
    CountAppend(first + hist, video, IsHistory);
    CountAppend(first, hist, IsHistory);
    CountAppend(first + hist, video, IsDownload);
    CountAppend(first, hist, IsDownload);
    if newest.Some? {
      assert Count(video, IsDownload) == 1 by {
        assert video == [video[0]] + [video[1]];
        CountAppend([video[0]], [video[1]], IsDownload);
      }
    }
  }

  /**
   * For `ding` and `motion`: right after the header come `set <event>`, `lastAlertType
   * <event>` and one history call for that kind; a download happens exactly when the history
   * is not empty, of its newest entry, to the kind's fixed file, overwriting it, and it is
   * followed by the video-path reading. Nothing else comes before the closing URL call:
   * the alert has 12 events with a download and 10 without.
   */
  lemma AlertHandledKind(d: Device, a: Alert, b: Branch, newest: Option<int>, recordingId: int, captureUrl: string)
    requires BranchOf(a.kind) == Some(b)
    ensures var es := AlertEvents(d, a, newest, recordingId, captureUrl);
      && es[5].Send? && ParseCommand(es[5].cmd) == Some(Parsed(Set, Target(d.name), b.setEvent))
      && IsReadingOf(es[6], d, "lastAlertType", b.setEvent)
      && es[7] == History(d.id, HistoryLimit, b.kind)
      && |es| == (if newest.Some? then 12 else 10)
      && Count(es, IsHistory) == 1
      && Count(es, IsDownload) == (if newest.Some? then 1 else 0)
      && (newest.Some? ==>
            && es[8] == Download(d.id, newest.value, FhemPath + b.file, true)
            && IsReadingOf(es[9], d, b.videoReading, FhemPath + b.file))
  {
    var es := AlertEvents(d, a, newest, recordingId, captureUrl);
    var h, mid, tail := HeaderEvents(d, a), BranchEvents(d, b, newest), CaptureEvents(d, recordingId, captureUrl);
    assert KindEvents(d, a.kind, newest) == mid;
    assert es == h + mid + tail;
    BranchShape(d, b, newest);
    HeaderListed(d, a);
    AtMiddle(h, mid, tail, 0);
    AtMiddle(h, mid, tail, 1);
    AtMiddle(h, mid, tail, 2);
    if newest.Some? {
      AtMiddle(h, mid, tail, 3);
      AtMiddle(h, mid, tail, 4);
    }
    AlertHandledCalls(d, a, b, newest, recordingId, captureUrl);
  }

  /**
   * For `ding` and `motion`, alertDevice fetches the history once and downloads a video
   * exactly when that history is not empty.
   */
  lemma AlertHandledCalls(d: Device, a: Alert, b: Branch, newest: Option<int>, recordingId: int, captureUrl: string)
    requires BranchOf(a.kind) == Some(b)
    ensures Count(AlertEvents(d, a, newest, recordingId, captureUrl), IsHistory) == 1
    ensures Count(AlertEvents(d, a, newest, recordingId, captureUrl), IsDownload) == (if newest.Some? then 1 else 0)
  {
    var h, mid, tail := HeaderEvents(d, a), BranchEvents(d, b, newest), CaptureEvents(d, recordingId, captureUrl);
    assert KindEvents(d, a.kind, newest) == mid;
    BranchShape(d, b, newest);
    CountThree(h, mid, tail, IsHistory);
    CountThree(h, mid, tail, IsDownload);
    HeaderCalls(d, a);
    CaptureCalls(d, recordingId, captureUrl);
  }

  /** Indexing into the middle one of three consecutive parts. */
  lemma AtMiddle(h: seq<Event>, mid: seq<Event>, tail: seq<Event>, k: nat)
    requires k < |mid|
    ensures (h + mid + tail)[|h| + k] == mid[k]
  {
  }

  /** Counting over three consecutive parts. */
  lemma CountThree(a: seq<Event>, b: seq<Event>, c: seq<Event>, p: Event -> bool)
    ensures Count(a + b + c, p) == Count(a, p) + Count(b, p) + Count(c, p)
  {
    CountAppend(a + b, c, p);
    CountAppend(a, b, p);
  }

  /** The header only sends: no library call in it. */
  lemma HeaderCalls(d: Device, a: Alert)
    ensures Count(HeaderEvents(d, a), IsHistory) == 0
    ensures Count(HeaderEvents(d, a), IsDownload) == 0
    ensures Count(HeaderEvents(d, a), IsRecordingUrl) == 0
    ensures Count(HeaderEvents(d, a), IsCheck) == 0
    ensures Count(HeaderEvents(d, a), IsSleep) == 0
  {
    var h := HeaderEvents(d, a);
    assert forall i :: 0 <= i < |h| ==> h[i].Send?;
    CountNone(h, IsHistory);
    CountNone(h, IsDownload);
    CountNone(h, IsRecordingUrl);
    CountNone(h, IsCheck);
    CountNone(h, IsSleep);
  }

  /** The branch of a kind neither checks for alerts, sleeps, nor asks for a URL. */
  lemma KindCalls(d: Device, kind: Option<string>, newest: Option<int>)
    ensures Count(KindEvents(d, kind, newest), IsRecordingUrl) == 0
    ensures Count(KindEvents(d, kind, newest), IsCheck) == 0
    ensures Count(KindEvents(d, kind, newest), IsSleep) == 0
  {
    var es := KindEvents(d, kind, newest);
    assert forall i :: 0 <= i < |es| ==> es[i].Send? || es[i].History? || es[i].Download?;
    CountNone(es, IsRecordingUrl);
    CountNone(es, IsCheck);
    CountNone(es, IsSleep);
  }

  /** The closing steps call the library once, for the URL, and download nothing. */
  lemma CaptureCalls(d: Device, recordingId: int, captureUrl: string)
    ensures Count(CaptureEvents(d, recordingId, captureUrl), IsHistory) == 0
    ensures Count(CaptureEvents(d, recordingId, captureUrl), IsDownload) == 0
    ensures Count(CaptureEvents(d, recordingId, captureUrl), IsRecordingUrl) == 1
    ensures Count(CaptureEvents(d, recordingId, captureUrl), IsCheck) == 0
    ensures Count(CaptureEvents(d, recordingId, captureUrl), IsSleep) == 0
  {
    var t := CaptureEvents(d, recordingId, captureUrl);
    assert t == [t[0]] + [t[1]];
    CountAppend([t[0]], [t[1]], IsRecordingUrl);
    CountNone(t, IsHistory);
    CountNone(t, IsDownload);
    CountNone(t, IsCheck);
    CountNone(t, IsSleep);
  }

  /**
   * Any other kind: no `set`, no `lastAlertType`, no history call, no download; only the
   * five header readings and the capture URL, all of them `setreading` commands.
   */
  lemma AlertOtherKind(d: Device, a: Alert, newest: Option<int>, recordingId: int, captureUrl: string)
    requires a.kind != Some("ding") && a.kind != Some("motion")
    ensures var es := AlertEvents(d, a, newest, recordingId, captureUrl);
      && |es| == 7
      && Count(es, IsHistory) == 0
      && Count(es, IsDownload) == 0
      && forall i :: 0 <= i < |es| && es[i].Send? ==>
           ParseCommand(es[i].cmd).Some? && ParseCommand(es[i].cmd).value.verb == SetReading
  {
    var es := AlertEvents(d, a, newest, recordingId, captureUrl);
    var h, tail := HeaderEvents(d, a), CaptureEvents(d, recordingId, captureUrl);
    assert es == h + tail;
    HeaderCalls(d, a);
    CaptureCalls(d, recordingId, captureUrl);
    CountAppend(h, tail, IsHistory);
    CountAppend(h, tail, IsDownload);
    forall i | 0 <= i < |es| && es[i].Send?
      ensures ParseCommand(es[i].cmd).Some? && ParseCommand(es[i].cmd).value.verb == SetReading
    {
      if i < 5 {
        assert es[i] == h[i];
        ReadingsAt(d, HeaderReadings, HeaderValues(d, a), i);
      } else {
        assert es[i] == tail[1];
        CommandRoundTrip(SetReading, d.name, Reading("lastCaptureURL", captureUrl));
      }
    }
  }

  /** Every command alertDevice sends goes to the device it was given. */
  lemma AlertAddressed(d: Device, a: Alert, newest: Option<int>, recordingId: int, captureUrl: string)
    ensures AddressedTo(AlertEvents(d, a, newest, recordingId, captureUrl), d)
  {
    var es := AlertEvents(d, a, newest, recordingId, captureUrl);
    var h, mid, tail := HeaderEvents(d, a), KindEvents(d, a.kind, newest), CaptureEvents(d, recordingId, captureUrl);
    assert es == h + mid + tail;
    forall i | 0 <= i < |es| && es[i].Send?
      ensures ParseCommand(es[i].cmd).Some? && ParseCommand(es[i].cmd).value.target == Target(d.name)
    {
      var v, p :| es[i].cmd == Command(v, d.name, p) by {
        if i < |h| {
          assert es[i] == h[i];
        } else if i < |h| + |mid| {
          assert es[i] == mid[i - |h|];
        } else {
          assert es[i] == tail[i - |h| - |mid|];
        }
      }
      CommandRoundTrip(v, d.name, p);
    }
  }

  /** alertDevice neither checks for alerts nor sleeps, and asks for one recording URL. */
  lemma AlertCalls(d: Device, a: Alert, newest: Option<int>, recordingId: int, captureUrl: string)
    ensures Count(AlertEvents(d, a, newest, recordingId, captureUrl), IsCheck) == 0
    ensures Count(AlertEvents(d, a, newest, recordingId, captureUrl), IsSleep) == 0
    ensures Count(AlertEvents(d, a, newest, recordingId, captureUrl), IsRecordingUrl) == 1
  {
    var h, mid, tail := HeaderEvents(d, a), KindEvents(d, a.kind, newest), CaptureEvents(d, recordingId, captureUrl);
    CountThree(h, mid, tail, IsCheck);
    CountThree(h, mid, tail, IsSleep);
    CountThree(h, mid, tail, IsRecordingUrl);
    HeaderCalls(d, a);
    KindCalls(d, a.kind, newest);
    CaptureCalls(d, recordingId, captureUrl);
  }
}
