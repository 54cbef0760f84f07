/**
 * What the script does, as a trace of events: the commands sent to FHEM, the calls made on
 * the Ring library (whose replies are inputs of the model), each `time.sleep`, and a marker
 * where the retry shell starts an attempt. The marker has no effect in the script; it lets
 * the shell's own steps be told apart from the attempts' work.
 */
module Trace {
  /** One observable step. */
  datatype Event =
    | Send(cmd: string)                                            // fh.send_cmd
    | Update(device: int)                                          // dev.update()
    | CheckAlerts(device: int)                                     // dev.check_alerts()
    | History(device: int, limit: nat, kind: string)               // dev.history(limit, kind)
    | Download(device: int, recording: int, path: string, overwrite: bool) // dev.recording_download
    | RecordingUrl(device: int, recording: int)                    // dev.recording_url
    | Sleep(seconds: nat)                                          // time.sleep
    | Attempt(count: nat)                                          // the shell enters `try` with this count

  predicate IsSend(e: Event) { e.Send? }
  predicate IsUpdate(e: Event) { e.Update? }
  predicate IsCheck(e: Event) { e.CheckAlerts? }
  predicate IsHistory(e: Event) { e.History? }
  predicate IsDownload(e: Event) { e.Download? }
  predicate IsRecordingUrl(e: Event) { e.RecordingUrl? }
  predicate IsSleep(e: Event) { e.Sleep? }
  predicate IsAttempt(e: Event) { e.Attempt? }

  /** How many events of a trace satisfy `p`. */
  function Count(es: seq<Event>, p: Event -> bool): (n: nat)
    ensures n <= |es|
  {
    if es == [] then 0 else (if p(es[0]) then 1 else 0) + Count(es[1..], p)
  }

  /** A count is zero exactly when no event of the trace qualifies. */
  lemma {:induction false} CountNone(es: seq<Event>, p: Event -> bool)
    ensures Count(es, p) == 0 <==> forall i :: 0 <= i < |es| ==> !p(es[i])
  {
    if es != [] {
      CountNone(es[1..], p);
      assert forall i :: 1 <= i < |es| ==> es[i] == es[1..][i - 1];
    }
  }

  /** Counting splits over concatenation. */
  lemma {:induction false} CountAppend(a: seq<Event>, b: seq<Event>, p: Event -> bool)
    ensures Count(a + b, p) == Count(a, p) + Count(b, p)
  {
    if a == [] {
      assert a + b == b;
    } else {
      assert (a + b)[1..] == a[1..] + b;
      CountAppend(a[1..], b, p);
    }
  }
}
