/**
 * The `VoiceRecorder` component: it shows the length of a recording as `m:ss`
 * and uploads a captured recording, under a name the user types, to
 * `POST /upload-voice-sample`.
 */
module VoiceRecorder {
  import opened Wrappers
  import opened Text
  import opened Schema

  // ---------------------------------------------------------------------------
  // formatTime
  // ---------------------------------------------------------------------------

  /** `n.toString().padStart(2, '0')` for `n < 100`: two digits that read back as `n`. */
  function TwoDigits(n: nat): (r: string)
    requires n < 100
    ensures |r| == 2 && AllDigits(r) && DigitsValue(r) == n
  {
    var d := NatToString(n);
    NatToStringRoundTrip(n);
    if n < 10 then
      assert PadStart(d, 2, '0') == ['0'] + d;
      LeadingZero(d);
      PadStart(d, 2, '0')
    else
      assert |d| == 2 by {
        assert d == NatToString(n / 10) + [DigitChar(n % 10)];
      }
      PadStart(d, 2, '0')
  }

  /** `${Math.floor(seconds / 60)}:${(seconds % 60).toString().padStart(2, '0')}`. */
  function FormatTime(seconds: nat): (r: string)
    // At least one digit of minutes, then a colon and exactly two more characters.
    ensures |r| >= 4 && r[|r| - 3] == ':'
  {
    NatToString(seconds / 60) + ":" + TwoDigits(seconds % 60)
  }

  /** Reads `m:ss` back as a number of seconds. */
  function ParseTime(t: string): Option<nat> {
    if |t| >= 4 && t[|t| - 3] == ':' && AllDigits(t[..|t| - 3]) && AllDigits(t[|t| - 2..])
    then Some(DigitsValue(t[..|t| - 3]) * 60 + DigitsValue(t[|t| - 2..]))
    else None
  }

  /** Both sides of the colon are digits, and reading the display back recovers the elapsed seconds; the
      minutes are not capped at 59, so an hour shows as `60:00`. */
  lemma FormatTimeRoundTrip(seconds: nat)
    ensures var r := FormatTime(seconds);
      && AllDigits(r[..|r| - 3]) && AllDigits(r[|r| - 2..])
      && DigitsValue(r[..|r| - 3]) == seconds / 60 && DigitsValue(r[|r| - 2..]) == seconds % 60
    ensures ParseTime(FormatTime(seconds)) == Some(seconds)
  {
    var m, s := seconds / 60, seconds % 60;
    var r := FormatTime(seconds);
    FormatTimeSplit(seconds);
    NatToStringRoundTrip(m);
    assert m * 60 + s == seconds;
    assert ParseTime(r) == Some(DigitsValue(NatToString(m)) * 60 + DigitsValue(TwoDigits(s)));
  }

  /** The display is the minutes in front of the colon and the two-digit seconds behind it. */
  lemma FormatTimeSplit(seconds: nat)
    ensures var r := FormatTime(seconds);
      r[..|r| - 3] == NatToString(seconds / 60) && r[|r| - 2..] == TwoDigits(seconds % 60)
  {
    ColonSplit(FormatTime(seconds), NatToString(seconds / 60), TwoDigits(seconds % 60));
  }

  lemma ColonSplit(r: string, u: string, v: string)
    requires |v| == 2 && r == u + ":" + v
    ensures r[..|r| - 3] == u && r[|r| - 2..] == v
  {
    assert r[..|u|] == u;
    assert r[|u| + 1..] == v;
  }

  /** Different durations are always displayed differently. */
  lemma FormatTimeInjective(a: nat, b: nat)
    ensures FormatTime(a) == FormatTime(b) ==> a == b
  {
    FormatTimeRoundTrip(a);
    FormatTimeRoundTrip(b);
  }

  // ---------------------------------------------------------------------------
  // uploadSample
  // ---------------------------------------------------------------------------

  const NameRequired := Notice("Error", "Please provide a name for the voice sample", true)
  const Uploaded := Notice("Success", "Voice sample uploaded successfully", false)
  const UploadFailed := Notice("Error", "Failed to upload voice sample", true)

  /** What the component does that can be seen from outside it. */
  datatype Event =
    | Post(body: UploadBody)  // the request to `/api/upload-voice-sample`
    | Toast(notice: Notice)
    | SampleUploaded          // the `onSampleUploaded` callback

  /** The guard of `uploadSample`: a recording exists and its name is not blank, that is `sampleName.trim()` is
      not empty (`TrimEmptyIff`). */
  predicate CanSend(audioBlob: Option<Bytes>, sampleName: string) {
    audioBlob.Some? && !AllWhitespace(sampleName)
  }

  /** `disabled={uploading || !sampleName.trim()}` on the upload button, negated. */
  predicate UploadButtonEnabled(uploading: bool, sampleName: string) {
    !uploading && Trim(sampleName) != []
  }

  /** The upload button is enabled exactly when no upload is running and the name is not all white space, and
      with a recording present an enabled button always gets past the guard. */
  lemma UploadButtonRule(uploading: bool, sampleName: string, audioBlob: Option<Bytes>)
    ensures UploadButtonEnabled(uploading, sampleName) <==> !uploading && !AllWhitespace(sampleName)
    ensures UploadButtonEnabled(uploading, sampleName) && audioBlob.Some? ==> CanSend(audioBlob, sampleName)
  {
    TrimEmptyIff(sampleName);
  }

  /**
   * Everything one click on the upload button shows to the outside, given the
   * data URL the file reader produced (`encoded`) and whether the response was
   * ok. The request is modelled as completing within the click.
   */
  function UploadEvents(projectId: string, audioBlob: Option<Bytes>, sampleName: string, encoded: string,
                        duration: nat, responseOk: bool): (r: seq<Event>)
    // A missing recording or a blank name: an error toast and nothing else.
    ensures !CanSend(audioBlob, sampleName) ==> r == [Toast(NameRequired)]
    // Otherwise one request, first, carrying the name as typed and the recorded duration.
    ensures CanSend(audioBlob, sampleName) ==>
      |r| >= 2 && r[0] == Post(UploadBody(projectId, sampleName, encoded, duration))
    ensures forall i :: 0 <= i < |r| && r[i].Post? ==> i == 0
    // The caller is told to refresh on success and never otherwise, and only as the last step, so at most once.
    ensures SampleUploaded in r <==> CanSend(audioBlob, sampleName) && responseOk
    ensures forall i :: 0 <= i < |r| && r[i] == SampleUploaded ==> i == |r| - 1
    // A failed upload ends with the failure toast.
    ensures CanSend(audioBlob, sampleName) && !responseOk ==> |r| == 2 && r[1] == Toast(UploadFailed)
  {
    if !CanSend(audioBlob, sampleName) then [Toast(NameRequired)]
    else
      [Post(UploadBody(projectId, sampleName, encoded, duration))]
      + if responseOk then [Toast(Uploaded), SampleUploaded] else [Toast(UploadFailed)]
  }

  /** The state of one `VoiceRecorder`, with the recording-hook state it reads. */
  class Recorder {
    const projectId: string
    var sampleName: string
    var uploading: bool
    var audioBlob: Option<Bytes>  // the hook's captured recording
    var duration: nat             // the hook's recorded length in seconds
    var log: seq<Event>

    constructor (projectId: string)
      ensures this.projectId == projectId
      ensures sampleName == "" && !uploading && audioBlob == None && duration == 0 && log == []
    {
      this.projectId := projectId;
      sampleName := "";
      uploading := false;
      audioBlob := None;
      duration := 0;
      log := [];
    }

    /** Sends the request; only ever done while the upload flag is set. */
    method Dispatch(body: UploadBody)
      requires uploading
      modifies this`log
      ensures log == old(log) + [Post(body)]
    {
      log := log + [Post(body)];
    }

    /** `uploadSample`, with the file reader's result and the response status as inputs. */
    method UploadSample(encoded: string, responseOk: bool)
      modifies this
      ensures log == old(log) + UploadEvents(projectId, old(audioBlob), old(sampleName), encoded, old(duration), responseOk)
      // The guard leaves the state alone; after it the flag is always cleared.
      ensures uploading == if CanSend(old(audioBlob), old(sampleName)) then false else old(uploading)
      // Only a successful upload resets the recording and clears the name.
      ensures CanSend(old(audioBlob), old(sampleName)) && responseOk ==>
        sampleName == "" && audioBlob == None && duration == 0
      ensures !(CanSend(old(audioBlob), old(sampleName)) && responseOk) ==>
        sampleName == old(sampleName) && audioBlob == old(audioBlob) && duration == old(duration)
    {
      ghost var events := UploadEvents(projectId, audioBlob, sampleName, encoded, duration, responseOk);
      if !CanSend(audioBlob, sampleName) {
        log := log + [Toast(NameRequired)];
        return;
      }
      ghost var before := log;
      var body := UploadBody(projectId, sampleName, encoded, duration);
      uploading := true;
      Dispatch(body);
      if responseOk {
        log := log + [Toast(Uploaded)];
        audioBlob, duration := None, 0;  // the hook's `resetRecording`
        sampleName := "";
        log := log + [SampleUploaded];
        assert events == [Post(body), Toast(Uploaded), SampleUploaded];
        assert log == before + events;
      } else {
        log := log + [Toast(UploadFailed)];
        assert events == [Post(body), Toast(UploadFailed)];
        assert log == before + events;
      }
      uploading := false;
    }

    /**
     * The synchronous part of `uploadSample` as the browser runs it: reading the
     * recording only schedules the `onloadend` callback, so the `finally` block
     * clears the flag before any request is sent. `pending` says whether the
     * callback was scheduled.
     */
    method StartUploadAsWritten() returns (pending: bool)
      modifies this`log, this`uploading
      ensures pending == CanSend(old(audioBlob), old(sampleName))
      ensures !pending ==> log == old(log) + [Toast(NameRequired)] && uploading == old(uploading)
      ensures pending ==> log == old(log) && !uploading
    {
      if !CanSend(audioBlob, sampleName) {
        log := log + [Toast(NameRequired)];
        return false;
      }
      uploading := true;
      pending := true;
      uploading := false;
    }

    /**
     * The `onloadend` callback as written, run later with the name and duration
     * it captured: a non-ok response throws outside the `try`, so nothing
     * follows the request, not even the failure toast.
     */
    method OnLoadEndAsWritten(name: string, seconds: nat, encoded: string, responseOk: bool)
      modifies this`log, this`audioBlob, this`duration, this`sampleName
      ensures log == old(log) + [Post(UploadBody(projectId, name, encoded, seconds))]
        + (if responseOk then [Toast(Uploaded), SampleUploaded] else [])
      ensures sampleName == (if responseOk then "" else old(sampleName))
      ensures audioBlob == (if responseOk then None else old(audioBlob))
      ensures duration == (if responseOk then 0 else old(duration))
    {
      log := log + [Post(UploadBody(projectId, name, encoded, seconds))];
      if responseOk {
        log := log + [Toast(Uploaded)];
        audioBlob, duration := None, 0;  // the hook's `resetRecording`
        sampleName := "";
        log := log + [SampleUploaded];
      }
    }
  }

  /**
   * The code as written, run on a failing upload: the request goes out while the
   * upload button is enabled again, and nothing follows it; in particular no
   * failure toast, which `FailedUploadIsReported` shows the intended behaviour has.
   */
  method UploadFailureIsSilentAsWritten(projectId: string, recording: Bytes, name: string, seconds: nat, encoded: string)
    returns (shown: seq<Event>, busyWhileSending: bool)
    requires !AllWhitespace(name)
    ensures shown == [Post(UploadBody(projectId, name, encoded, seconds))]
    ensures !busyWhileSending
  {
    var r := new Recorder(projectId);
    r.audioBlob, r.sampleName, r.duration := Some(recording), name, seconds;
    var pending := r.StartUploadAsWritten();
    busyWhileSending := r.uploading;
    r.OnLoadEndAsWritten(name, seconds, encoded, false);
    shown := r.log;
  }

  /** The intended behaviour: a named recording whose upload fails is followed by the failure toast. */
  lemma FailedUploadIsReported(projectId: string, recording: Bytes, name: string, seconds: nat, encoded: string)
    requires !AllWhitespace(name)
    ensures UploadEvents(projectId, Some(recording), name, encoded, seconds, false)
      == [Post(UploadBody(projectId, name, encoded, seconds)), Toast(UploadFailed)]
  {
  }
}
