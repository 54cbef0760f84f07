# ring-fhem in Dafny

ring.py connects a Ring doorbell account to the FHEM home-automation server. At start-up it
gathers the account's stickup cams and doorbells into a registry. It then runs a retry shell.
Each attempt publishes every device's attributes as FHEM readings and polls the devices for
alerts. On a `ding` or `motion` alert it publishes the alert, fetches the newest video of
that kind and publishes its path. All output goes to FHEM as telnet command lines of the form
`<verb> Ring_<name> <payload>`.

The model records the script's observable steps as one append-only trace of events
(`Trace.Event`): what it sends to FHEM, the calls it makes on the Ring library, each
`time.sleep` (a `Sleep(seconds)` event), and an `Attempt(count)` marker where the retry shell
enters its `try` for attempt `count`. The marker has no effect in ring.py; it lets the shell's
own steps be picked out of the trace. The library's replies are inputs:

- a device record of refreshed attributes (`Devices.Device`);
- the alert dictionary (`Devices.Alert`);
- the id of the newest history entry, or none for an empty history;
- the answers to each `check_alerts()` call (`Polling.Poll`, indexed by the check's number),
  together with what alertDevice then reads: the newest history id, the alerted device's
  `last_recording_id` at that moment, and the recording URL;
- for the retry shell, the replies of every round of every attempt (`Service.Turn`,
  `replies(k)(r)` for attempt k, round r): the record `update()` leaves for each registered
  key in that round (`records`), and the answers of each of its checks (`polls(n)`); and the
  number of rounds `rounds` each attempt is followed for.

The iteration order of the registry dict is unspecified in Python 2, so it is an input too:
`order` lists every registered key once.

Modules:

- `Fhem`: the command formats, Python's `str()` of an integer, and a reader for the command
  grammar, used to prove that each formatted command reads back as its verb, target and payload.
- `Wrappers`: the Option type.
- `Trace`: the events, and counting over traces.
- `Devices`: getDeviceInfo and alertDevice as functions giving the events they produce, and
  their properties.
- `Polling`: pollDevices as a specification function over the schedule of checks.
- `Registry`: the start-up registry.
- `Supervisor`: the retry shell over attempts that may or may not fail, for any reason.
- `Service`: the script's own attempts: an attempt repeats rounds (every snapshot of the
  refreshed records, then pollDevices) until one raises. The shell over those attempts is
  proved to end as the `Supervisor` shell does when an attempt's failure is the KeyError its
  rounds raise, and its trace, with the attempts' own work dropped, is the `Supervisor` trace.
- `RingFhem`: class `Bridge`, holding the trace. Its methods follow ring.py's routines, each
  proved to append exactly what its specification function says. The attempt's endless
  `while 1` is followed for `rounds` turns (see "Left out").

Each module has its own file, named after it in lower case; `RingFhem` is in `bridge.dfy`.

Behaviour of ring.py worth knowing:

- alertDevice does not match the alert's id against the history and does not wait for the
  recording. It fetches one history of at most 100 entries and downloads the first one.
- `set` and `lastAlertType` are published before the history is fetched.
- `lastCaptureURL` is published after every alert, whatever its kind.
- The registry is keyed by `account_id`, but the poll loop looks alerts up by `doorbot_id`. A
  key that is not registered raises KeyError.
- The registry is built once, before the retry shell, not once per attempt. It holds the
  library's device objects, which `update()` refreshes in place in every round, so the poll
  loop and alertDevice see the refreshed attributes.
- The poll loop returns after 601 passes, because its exit test is `i > 600`.
- The retry counter is never reset. The process survives at most four failures in its whole
  life; after the fifth it sleeps and then re-raises.

## Model

| member | source | states |
|---|---|---|
| Fhem.Command | ring.py:63-70 | definition: the telnet line of a command, namely the verb's word, `Ring_` with the device name minus its spaces, and the payload, separated by single spaces |
| Fhem.VerbOf | ring.py:63-70 | reading a verb word back gives the verb exactly when the word is that verb's word (`set`, `attr`, `setreading`) |
| Fhem.Sanitize | ring.py:64 | the name with spaces removed has no space and is no longer than the name |
| Fhem.Target | ring.py:63-70 | a command's target starts with `Ring_` and contains no space |
| Fhem.SplitWord | ring.py:63-70 | splitting at the first space gives a space-free word, and the word, a space and the rest make up the input; no split means no space |
| Fhem.SplitWordOf | ring.py:63-70 | a space-free word followed by a space is cut off exactly |
| Fhem.CommandRoundTrip | ring.py:63-70 | every `set`/`attr`/`setreading` command reads back as its verb, `Ring_` plus the space-free name, and the unchanged payload |
| Fhem.ReadingRoundTrip | ring.py:69-70 | a `setreading` command reads back as setting the named reading on the device's target |
| Fhem.SanitizeAppend | ring.py:64 | removing spaces commutes with concatenation |
| Fhem.SanitizeKeepsOthers | ring.py:64 | removing spaces keeps every other character as often as it occurs |
| Fhem.SanitizeKeeps | ring.py:64 | a name without spaces is left unchanged, so sanitising twice is sanitising once |
| Fhem.DigitChar | ring.py:79 | a digit below ten becomes the decimal character of that value |
| Fhem.NatString | ring.py:79 | `str()` of a natural number is non-empty, only decimal digits, with no leading zero |
| Fhem.IntString | ring.py:79 | `str()` of an integer is non-empty and has no space, so a reading value never splits |
| Fhem.NatStringRoundTrip | ring.py:79 | the digits `str()` writes read back as the number |
| Fhem.IntStringRoundTrip | ring.py:79 | `str()` of any integer, negative ones with their minus sign, reads back as that integer |
| Trace.Count | ring.py:48-51 | helper: a count never exceeds the trace length |
| Trace.CountNone | ring.py:48-51 | helper: a count is zero exactly when no event of the trace qualifies |
| Trace.CountAppend | ring.py:48-51 | helper: counts add up over concatenated traces |
| Devices.SetRing | ring.py:63-64 | definition: setRing's line, `set Ring_<name> <payload>` |
| Devices.AttrRing | ring.py:66-67 | definition: attrRing's line, `attr Ring_<name> <payload>` |
| Devices.SrRing | ring.py:69-70 | definition: srRing's line, `setreading Ring_<name> <payload>` |
| Devices.SnapshotEvents | ring.py:76-90 | definition: getDeviceInfo's events, `update()` and then one `setreading` per attribute, from account to WifiRSSI |
| Devices.SnapshotValues | ring.py:79-90 | one value for each of the twelve reading names |
| Devices.Readings | ring.py:79-90 | one command per reading name |
| Devices.ReadingsAt | ring.py:79-90 | the k-th command sets the k-th reading to the k-th value on the device |
| Devices.ReadingsOnlySend | ring.py:79-90 | a run of readings only sends, one command per reading, all to the device |
| Devices.SnapshotOrder | ring.py:76-90 | getDeviceInfo calls update() first, then sends exactly twelve readings in the fixed order (account … WifiRSSI), each with the device's value, all addressed to the device |
| Devices.PublishEvents | ring.py:151 | publishing n devices produces 13·n events |
| Devices.PublishAt | ring.py:151 | the k-th block of thirteen events is the complete snapshot of the k-th device in iteration order |
| Devices.PublishCounts | ring.py:151 | publishing refreshes each device once and sends twelve readings per device |
| Devices.HeaderEvents | ring.py:112-116 | definition: the five header readings of alertDevice, id, account id, name, sip_to and sip_token |
| Devices.BranchEvents | ring.py:117-130 | definition: a handled kind's branch, `set`, `lastAlertType`, the history call, and for a non-empty history the download and the video reading |
| Devices.KindEvents | ring.py:117-130 | definition: the branch for `ding` or `motion`, nothing for any other kind |
| Devices.CaptureEvents | ring.py:131 | definition: the recording-URL call for `last_recording_id`, then the `lastCaptureURL` reading |
| Devices.AlertEvents | ring.py:111-131 | definition: alertDevice's events, the five header readings, the kind's branch and the capture URL |
| Devices.HeaderValues | ring.py:112-116 | one value for each of the five header readings |
| Devices.BranchOf | ring.py:117-130 | exactly `ding` and `motion` have a branch, and the branch is for that kind |
| Devices.AlertFrame | ring.py:111-131 | every alert starts with the five header readings in order and ends with one recording-URL call for `last_recording_id` as read then, followed by `lastCaptureURL`; there is exactly one URL call |
| Devices.BranchShape | ring.py:117-130 | a handled kind sends `set <event>`, then `lastAlertType <event>`, then makes one history call (limit 100, that kind); it downloads once exactly when the history is not empty, the newest entry, to the kind's file, overwriting, and then publishes the video path |
| Devices.AlertHandledKind | ring.py:117-131 | the same, placed right after the header in the whole alert: positions 5–9, one history call, a download only for a non-empty history; the alert has 12 events with a download and 10 without, so nothing else comes before the closing URL call |
| Devices.AlertHandledCalls | ring.py:117-130 | a handled kind fetches the history once and downloads exactly when the history is not empty |
| Devices.AlertOtherKind | ring.py:117-131 | any other kind gives exactly seven events, with no history call, no download and no `set`: only `setreading` commands |
| Devices.AlertAddressed | ring.py:111-131 | every command of an alert goes to the device the alert was resolved to |
| Devices.AlertCalls | ring.py:111-131 | an alert neither checks for alerts nor sleeps, and asks for one recording URL |
| Devices.CountAllSends | ring.py:48-51 | helper: a trace of sends only counts every event as a send |
| Devices.CountThree | ring.py:111-131 | helper: counts add up over the three parts of an alert |
| Devices.HeaderCalls | ring.py:112-116 | the header makes no library call |
| Devices.KindCalls | ring.py:117-130 | the kind branch makes no URL call, no check and no sleep |
| Devices.CaptureCalls | ring.py:131 | the closing steps make one URL call and nothing else |
| Polling.Lookup | ring.py:102 | `devs[key]` succeeds exactly for a registered key and gives its entry |
| Polling.InOrder | ring.py:99 | the devices in iteration order, one per listed key |
| Polling.Schedule | ring.py:97-109 | n passes check n times as many devices as one pass |
| Polling.CheckStep | ring.py:99-106 | definition: one check, `check_alerts()`; on a true check with a truthy alert, the lookup by `doorbot_id`, which raises KeyError for a missing key or else handles the alert on the found device; then the 2-second sleep |
| Polling.RunChecks | ring.py:97-109 | definition: checks in turn, each check's events after the previous ones, stopping at the first KeyError |
| Polling.PollRun | ring.py:93-109 | definition: pollDevices, the run of 601 passes over the registry in iteration order |
| Polling.CheckStepCases | ring.py:99-106 | one check: check_alerts first and once; the alert is handled exactly when the check is true, the alert truthy and its device registered, and then on that device; an unregistered device raises KeyError with no sleep; otherwise the check ends with its one sleep |
| Polling.CheckerShaped | ring.py:99-106 | every check of pollDevices has that shape |
| Polling.RunChecksAppend | ring.py:97-109 | running two lists of checks is running the first, then, if it did not raise, the second |
| Polling.RunChecksRaises | ring.py:97-109 | a run raises exactly when one of its checks raises |
| Polling.RunChecksCounts | ring.py:97-109 | without an exception, one check and one sleep per device checked; with one, the run ends at the failing check with one sleep fewer than checks |
| Polling.RunChecksNext | ring.py:99-106 | the next check extends the run by its events, and a raising check ends the run right there |
| Polling.PassAppend | ring.py:97-109 | after passes that did not raise, one more pass extends the run by that pass, and a pass that raises ends the whole poll run |
| Polling.ScheduleSplit | ring.py:97-109 | n passes are i passes followed by n − i more |
| Polling.CheckerRaises | ring.py:99-105 | a run of checks raises exactly when some check reports a truthy alert for an unregistered device |
| Polling.PollRunRaises | ring.py:93-109 | pollDevices raises KeyError exactly when one of its checks (601 per registered device) reports an alert naming an unregistered device |
| Polling.PollRunPasses | ring.py:97-109 | pollDevices returns normally only after 601 full passes: 601·n checks and as many sleeps in all, n being the number of registered devices |
| Polling.OrderSize | ring.py:99 | the iteration order lists as many keys as the registry holds |
| Polling.DistinctCard | ring.py:99 | helper: a sequence without repetitions has as many distinct elements as entries |
| Registry.RegistryOf | ring.py:136-142 | definition: the dict after `devs[t.account_id] = t` for each device found, in order |
| Registry.RegistryKeys | ring.py:136-142 | the registry has one key per distinct `account_id` among the devices found |
| Registry.RegistryLatest | ring.py:138-140 | each entry is the last device found with that `account_id` |
| Registry.RegistryDistinct | ring.py:136-142 | with distinct account ids, every device found is registered under its own id and nothing is lost |
| Registry.GatherDevices | ring.py:136-142 | the start-up loop builds exactly that registry, and the poll device is the last device found, or none |
| Supervisor.SuperviseFrom | ring.py:147-161 | definition: the shell from attempt `count`, serving in an attempt that does not fail, else a 5-second sleep and either the re-raise at count 5 or the next attempt |
| Supervisor.Supervise | ring.py:147-161 | definition: the shell started with `count = 1` |
| Supervisor.SuperviseFromSpec | ring.py:147-161 | from any attempt on: fatal exactly when every attempt up to the fifth fails; otherwise serving in the first attempt that does not fail; attempts numbered consecutively, each failure followed by one 5-second sleep |
| Supervisor.FatalIffFiveFailures | ring.py:147-161 | the process dies exactly when attempts 1–5 all fail, after five attempts and five sleeps, the last sleep right before the re-raise |
| Supervisor.AtMostFourFailures | ring.py:147-161 | a serving attempt k comes after exactly k − 1 failures and as many sleeps, so at most four failures are survived |
| Supervisor.AlternatingCounts | ring.py:147-161 | helper: in a run alternating attempts and sleeps the counts follow from its length |
| RingFhem.Bridge.constructor | ring.py:46 | the trace starts empty |
| RingFhem.Bridge.SendFhem | ring.py:48-51 | one command is appended to the trace |
| RingFhem.Bridge.Call | ring.py:77 | a library call, a sleep or the attempt marker is appended to the trace |
| RingFhem.Bridge.GetDeviceInfo | ring.py:76-90 | appends exactly the snapshot of the device |
| RingFhem.Bridge.PublishAlertHeader | ring.py:112-116 | appends exactly the five header readings |
| RingFhem.Bridge.PublishKind | ring.py:117-130 | appends exactly the branch of a handled kind |
| RingFhem.Bridge.AlertDevice | ring.py:111-131 | appends exactly the alert's events: header, branch for the kind, capture URL |
| RingFhem.Bridge.CheckDevice | ring.py:100-106 | one check appends exactly that check's events and returns its KeyError, if any |
| RingFhem.Bridge.PollPass | ring.py:99-106 | one pass over the registry appends exactly the run of its checks and stops at the first KeyError |
| RingFhem.Bridge.PollDevices | ring.py:93-109 | appends exactly the poll run's events and returns its KeyError, if any |
| RingFhem.Bridge.PublishAll | ring.py:151 | appends the snapshot of every device in iteration order |
| RingFhem.Bridge.Round | ring.py:150-152 | one turn of the attempt loop appends the snapshots of the records `update()` left in this turn, then the poll run over those records, and returns the poll run's KeyError |
| RingFhem.Bridge.RunAttempt | ring.py:150-152 | the attempt's `while 1`, followed for `rounds` turns, appends its rounds up to and including the first that raises, and returns that KeyError |
| RingFhem.Bridge.TryAttempt | ring.py:149-152 | the `try` of attempt `count` marks the attempt and then appends its rounds |
| RingFhem.Bridge.Retry | ring.py:147-161 | the retry shell over the script's attempts: each attempt, a 5-second sleep after each that raised, re-raise at the fifth; ends as `Service.ServeOutcome` says, with the trace `Service.ServeTrace` describes |
| RingFhem.Bridge.Start | ring.py:136-161 | the registry is built once, then the retry shell runs every attempt on it |
| Service.RoundRun | ring.py:150-152 | definition: one turn of `while 1`, the snapshots of the refreshed records in iteration order, then pollDevices over them |
| Service.AttemptRun | ring.py:149-152 | definition: the first `rounds` turns of an attempt, ending at the first round that raises |
| Service.ServeFrom | ring.py:147-161 | definition: the shell over given attempts from `count` on, each attempt's marker and work, and after each that raised the 5-second sleep and the re-raise at count 5 or the next attempt |
| Service.ServeRun | ring.py:147-161 | definition: that shell from `count = 1` over the script's attempts |
| Service.Refreshed | ring.py:77 | after `update()` the registry has the same keys, each holding the record the library left for it |
| Service.RefreshedOrder | ring.py:77 | refreshing keeps the iteration order and the number of devices |
| Service.StrayRefreshed | ring.py:77 | helper: refreshing registers no device and drops none, so the same alerts raise |
| Service.RoundRaises | ring.py:150-152 | a round starts with the snapshots of every refreshed record in iteration order, and raises exactly when one of its checks reports an alert for a device the registry lacks |
| Service.RoundSnapshotAt | ring.py:76-90 | the k-th snapshot of a round is that of the k-th key's record as `update()` left it in that round, not as found at start-up |
| Service.AttemptNext | ring.py:150-152 | one more turn of an attempt that has not raised extends it by that round |
| Service.AttemptStops | ring.py:149-154 | once a round has raised, the attempt is over: later turns add nothing |
| Service.AttemptRaises | ring.py:149-154 | an attempt ends with a KeyError within its turns exactly when one of its rounds has a check reporting an alert for an unregistered device |
| Service.StraySplit | ring.py:149-154 | helper: a stray alert in the first r + 1 rounds is one in the first r or one in round r |
| Service.ServeAsSupervise | ring.py:147-161 | the shell over the script's attempts ends as the abstract shell does when failing means raising |
| Service.ServeEnds | ring.py:147-161 | over any attempts: fatal exactly when attempts 1 to 5 all raise, otherwise serving in the first attempt that has not raised, after k − 1 that did |
| Service.ServeOutcome | ring.py:147-161 | the script dies exactly when each of its five attempts ends with a KeyError; otherwise it serves in attempt k, attempts 1 to k − 1 having raised and attempt k not |
| Service.EndsWithAfter | ring.py:147-161 | helper: what comes before a trace does not change how it ends |
| Service.ServeLast | ring.py:154-159 | a fatal shell's trace ends with the 5-second sleep before the re-raise; a serving one ends with the marker and the work of the attempt it serves in |
| Service.Backbone | ring.py:147-161 | the shell's own steps of a trace: no more events than the trace, each an attempt marker or a 5-second sleep |
| Service.BackboneAppend | ring.py:147-161 | the shell's steps of a concatenation are those of each part, in order |
| Service.BackboneOne | ring.py:147-161 | helper: one event is its own backbone exactly when it is a step of the shell |
| Service.QuietBackbone | ring.py:147-161 | a trace with no step of the shell has an empty backbone |
| Service.QuietAppend | ring.py:147-161 | helper: two traces without a step of the shell make one |
| Service.QuietSnapshot | ring.py:76-90 | getDeviceInfo neither marks an attempt nor sleeps the back-off |
| Service.QuietPublish | ring.py:151 | the snapshots of a round hold no step of the shell |
| Service.QuietAlert | ring.py:111-131 | alertDevice holds no step of the shell |
| Service.QuietCheck | ring.py:99-106 | a device check never marks an attempt nor sleeps the 5-second back-off |
| Service.QuietChecks | ring.py:97-109 | a run of such checks holds no step of the shell |
| Service.QuietRound | ring.py:150-152 | a round holds no step of the shell |
| Service.QuietAttempt | ring.py:149-152 | an attempt's rounds hold no step of the shell |
| Service.BackboneHead | ring.py:149-157 | helper: an attempt's marker, its work and its back-off leave the marker and the back-off |
| Service.ServeBackbone | ring.py:147-161 | over attempts whose work holds no step of the shell, the shell's trace with that work dropped is exactly the abstract shell's trace |
| Service.ServeShape | ring.py:147-161 | over any such attempts: the backbone is the abstract shell's trace; a fatal shell made five attempts and slept five times, the trace ending with the last sleep; a serving one in attempt k made k attempts and slept k − 1 times, ending with attempt k's work |
| Service.ServeTrace | ring.py:147-161 | the same for the script's own attempts: its trace, with each attempt's rounds dropped, alternates attempt markers and 5-second sleeps as the abstract shell does; five of each before the re-raise, or k markers and k − 1 sleeps when serving in attempt k |

## Left out

- Logging in to Ring and opening the FHEM connection (ring.py:44, ring.py:46): network clients of libraries that are not part of this model.
- The logging set-up (ring.py:17-40) and every `logger` call: they do not change what is sent.
- askFhemForReading and askFhemForAttr (ring.py:53-61): socket reads that the main flow never calls.
- The thread and lock globals (ring.py:72-74): unused, and concurrency is out of scope.
- Time: each `time.sleep` is a `Sleep(seconds)` event, not a delay.
- What update, check_alerts, history, recording_download and recording_url do inside the library: each is an event in the trace, and its reply is an input.
- How `update()` refreshes a device inside the library: the record it leaves for each key in each round is an input (`Service.Turn`), and that round's snapshots, checks and alerts use it.
- `'address ' + dev.address` has no `str()` and would raise for an address that is not a string; addresses are modelled as strings.
- Exceptions that the library or the connection raise (inside update, check_alerts, history, recording_download, recording_url or a telnet send) are not modelled: in the script's own attempts (`Service`) the only exception is the poll loop's KeyError. The `Supervisor` shell is proved for attempts that fail for any reason (`fails`).
- Devices.SnapshotValues: all attribute text is assumed to convert with `str()`. In Python 2, `str()` of a unicode value with a non-ASCII character raises UnicodeEncodeError, so for a device named "Haustür" getDeviceInfo sends four readings and then raises at `str(dev.name)`; the model (and `Devices.SnapshotOrder`) sends all twelve. `d.name` stands both for the raw name and for `str(dev.name)`.
- Devices.HeaderValues: likewise, `str(dev.name)` in alertDevice is assumed to succeed, so a non-ASCII device name does not raise there in the model.
- RingFhem.Bridge.RunAttempt: the attempt's `while 1` never ends without an exception; the model follows it for `rounds` turns, and an attempt that has not raised by then is reported as serving (`Serving(k)` from `RingFhem.Bridge.Retry`).
- A falsy alert (`None` or an empty dict) is modelled as no alert.
- `attrRing` is modelled (`Devices.AttrRing`), but ring.py never calls it.
