/**
 * The `ProjectDetail` page: it loads one project with its voice samples and
 * generated audio, shows them with display fallbacks, and sends typed text to
 * `POST /generate-speech`.
 */
module ProjectDetail {
  import opened Wrappers
  import opened Text
  import opened Schema
  import CreateProjectDialog

  const EnterText := Notice("Error", "Please enter text to generate speech", true)
  const NeedSample := Notice("Error", "Please upload at least one voice sample first", true)
  const Generated := Notice("Success", "Speech generated successfully", false)
  const GenerateFailed := Notice("Error", "Failed to generate speech", true)
  const LoadFailed := Notice("Error", "Failed to load project data", true)

  /** The three tables the page reads, each filtered by the project id. */
  datatype Collection =
    | ProjectRow  // `voice_projects` where `id` is the project id, one row
    | SampleRows  // `voice_samples` where `project_id` is the project id
    | AudioRows   // `generated_audio` where `project_id` is the project id

  /** What the page does that can be seen from outside it. */
  datatype Event =
    | Query(collection: Collection, projectId: string)
    | PostGenerate(body: GenerateBody)  // the request to `/api/generate-speech`
    | Toast(notice: Notice)
    | Refetch                           // the unawaited `fetchProjectData()` after a generation

  // ---------------------------------------------------------------------------
  // Display fallbacks
  // ---------------------------------------------------------------------------

  /** `project.description || 'No description'`. */
  function DescriptionText(description: Option<string>): (r: string)
    ensures r != []
    ensures description.Some? && description.value != [] ==> r == description.value
    ensures description.None? || description.value == [] ==> r == "No description"
  {
    match description
    case None => "No description"
    case Some(d) => if d == [] then "No description" else d
  }

  /** A project created through the dialog shows the typed description without its surrounding white space,
      and the fallback exactly when nothing but white space was typed. */
  lemma CreatedProjectDescription(name: string, description: string, userId: string)
    ensures var row := CreateProjectDialog.NewProjectRecord(name, description, userId);
      DescriptionText(row.description) == if AllWhitespace(description) then "No description" else Trim(description)
  {
    CreateProjectDialog.NormalizeDescriptionSpec(description);
  }

  const UnknownDuration := "Unknown duration"

  /** `sample.duration_seconds ? `${sample.duration_seconds}s` : 'Unknown duration'`. */
  function DurationText(seconds: Option<int>): (r: string)
    // The fallback is shown exactly for a missing length and for a length of zero, which is falsy.
    ensures r == UnknownDuration <==> seconds.None? || seconds.value == 0
    ensures seconds.Some? && seconds.value != 0 ==> |r| >= 2 && r[|r| - 1] == 's'
  {
    if seconds.None? || seconds.value == 0 then UnknownDuration
    else
      var r := IntToString(seconds.value) + "s";
      assert r[|r| - 1] == 's';
      assert UnknownDuration[|UnknownDuration| - 1] == 'n';
      r
  }

  /** Any other length, negative ones included since they are truthy, is shown as its decimal rendering
      followed by `s`, and reads back as that length. */
  lemma DurationTextRoundTrip(seconds: int)
    requires seconds != 0
    ensures var r := DurationText(Some(seconds));
      && |r| >= 2 && r[|r| - 1] == 's' && r[..|r| - 1] == IntToString(seconds)
    ensures var t := DurationText(Some(seconds))[..|DurationText(Some(seconds))| - 1];
      && (seconds > 0 ==> AllDigits(t) && DigitsValue(t) == seconds)
      && (seconds < 0 ==> |t| >= 2 && t[0] == '-' && AllDigits(t[1..]) && DigitsValue(t[1..]) == -seconds)
  {
    SplitAt(DurationText(Some(seconds)), IntToString(seconds), "s");
  }

  // ---------------------------------------------------------------------------
  // generateSpeech
  // ---------------------------------------------------------------------------

  /** `samples.map(s => ({ name: s.name, audioUrl: s.audio_url }))`. */
  function SampleRefs(samples: seq<VoiceSample>): (r: seq<SampleRef>)
    // One entry per loaded sample, in the same order, holding its name and URL.
    ensures |r| == |samples|
    ensures forall i :: 0 <= i < |r| ==> r[i] == SampleRef(samples[i].name, samples[i].audioUrl)
  {
    if samples == [] then []
    else [SampleRef(samples[0].name, samples[0].audioUrl)] + SampleRefs(samples[1..])
  }

  /** The guards of `generateSpeech`: the text is not blank (`inputText.trim()` is not empty, by `TrimEmptyIff`)
      and at least one sample is loaded. */
  predicate CanGenerate(inputText: string, samples: seq<VoiceSample>) {
    !AllWhitespace(inputText) && |samples| > 0
  }

  /** The body `generateSpeech` posts: the text exactly as typed, untrimmed. */
  function GenerateRequest(projectId: string, inputText: string, samples: seq<VoiceSample>): GenerateBody {
    GenerateBody(projectId, inputText, SampleRefs(samples))
  }

  /**
   * Everything one click on the generate button shows to the outside, given
   * whether the response was ok (a network error counts as not ok).
   */
  function GenerateEvents(projectId: string, inputText: string, samples: seq<VoiceSample>, responseOk: bool)
    : (r: seq<Event>)
    // The text is checked first: a blank text is reported even when there are no samples either.
    ensures AllWhitespace(inputText) ==> r == [Toast(EnterText)]
    ensures !AllWhitespace(inputText) && |samples| == 0 ==> r == [Toast(NeedSample)]
    // Otherwise one request, first, with the typed text and every loaded sample.
    ensures CanGenerate(inputText, samples) ==>
      |r| >= 2 && r[0] == PostGenerate(GenerateRequest(projectId, inputText, samples))
    ensures forall i :: 0 <= i < |r| && r[i].PostGenerate? ==> i == 0 && CanGenerate(inputText, samples)
    // The data is fetched again after a success and never otherwise, as the last step.
    ensures Refetch in r <==> CanGenerate(inputText, samples) && responseOk
    ensures forall i :: 0 <= i < |r| && r[i] == Refetch ==> i == |r| - 1
    // A failed request ends with the failure toast.
    ensures CanGenerate(inputText, samples) && !responseOk ==> |r| == 2 && r[1] == Toast(GenerateFailed)
  {
    if AllWhitespace(inputText) then [Toast(EnterText)]
    else if |samples| == 0 then [Toast(NeedSample)]
    else
      [PostGenerate(GenerateRequest(projectId, inputText, samples))]
      + if responseOk then [Toast(Generated), Refetch] else [Toast(GenerateFailed)]
  }

  /** `disabled={generating || !inputText.trim() || samples.length === 0}` on the generate button, negated. */
  predicate GenerateButtonEnabled(generating: bool, inputText: string, samples: seq<VoiceSample>) {
    !generating && Trim(inputText) != [] && |samples| != 0
  }

  /** The generate button is enabled exactly when nothing is in flight and both guards of `generateSpeech` pass,
      so a click on an enabled button always sends the request. */
  lemma GenerateButtonRule(generating: bool, inputText: string, samples: seq<VoiceSample>, projectId: string,
                           responseOk: bool)
    ensures GenerateButtonEnabled(generating, inputText, samples) <==> !generating && CanGenerate(inputText, samples)
    ensures GenerateButtonEnabled(generating, inputText, samples) ==>
      GenerateEvents(projectId, inputText, samples, responseOk)[0].PostGenerate?
  {
    TrimEmptyIff(inputText);
  }

  // ---------------------------------------------------------------------------
  // fetchProjectData
  // ---------------------------------------------------------------------------

  /** `data || []`: a list the database answered with, or the empty list for no data. */
  function OrEmpty<T>(data: Option<seq<T>>): seq<T> {
    if data.Some? then data.value else []
  }

  /**
   * Everything one load shows to the outside, given what each of the three
   * queries answers (its rows, or the error it reports).
   */
  function FetchEvents(projectId: string, projectResult: Result<Project>, samplesResult: Result<Option<seq<VoiceSample>>>,
                       audioResult: Result<Option<seq<GeneratedAudio>>>): (r: seq<Event>)
    // The project is always asked for first.
    ensures |r| >= 2 && r[0] == Query(ProjectRow, projectId)
    // A query is sent only when every earlier one succeeded.
    ensures Query(SampleRows, projectId) in r <==> projectResult.Success?
    ensures Query(AudioRows, projectId) in r <==> projectResult.Success? && samplesResult.Success?
    // The error toast is shown exactly when some query failed, as the last step.
    ensures Toast(LoadFailed) in r <==> projectResult.Failure? || samplesResult.Failure? || audioResult.Failure?
    ensures forall i :: 0 <= i < |r| && r[i].Toast? ==> i == |r| - 1 && r[i] == Toast(LoadFailed)
  {
    var project, samples, audio := Query(ProjectRow, projectId), Query(SampleRows, projectId), Query(AudioRows, projectId);
    if projectResult.Failure? then [project, Toast(LoadFailed)]
    else if samplesResult.Failure? then [project, samples, Toast(LoadFailed)]
    else if audioResult.Failure? then [project, samples, audio, Toast(LoadFailed)]
    else [project, samples, audio]
  }

  /** The state of one `ProjectDetail` page. */
  class Page {
    const projectId: string  // the route parameter
    var project: Option<Project>
    var samples: seq<VoiceSample>
    var generatedAudio: seq<GeneratedAudio>
    var inputText: string
    var generating: bool
    var loading: bool
    var log: seq<Event>

    constructor (projectId: string)
      ensures this.projectId == projectId
      ensures project == None && samples == [] && generatedAudio == [] && inputText == ""
      ensures !generating && loading && log == []
    {
      this.projectId := projectId;
      project := None;
      samples := [];
      generatedAudio := [];
      inputText := "";
      generating := false;
      loading := true;
      log := [];
    }

    /** `fetchProjectData`, with the answers of the three queries as inputs. */
    method FetchProjectData(projectResult: Result<Project>, samplesResult: Result<Option<seq<VoiceSample>>>,
                            audioResult: Result<Option<seq<GeneratedAudio>>>)
      modifies this
      ensures log == old(log) + FetchEvents(projectId, projectResult, samplesResult, audioResult)
      // Each piece of state is replaced only when its own query and every earlier one succeeded.
      ensures project == if projectResult.Success? then Some(projectResult.value) else old(project)
      ensures samples == if projectResult.Success? && samplesResult.Success? then OrEmpty(samplesResult.value)
        else old(samples)
      ensures generatedAudio ==
        if projectResult.Success? && samplesResult.Success? && audioResult.Success? then OrEmpty(audioResult.value)
        else old(generatedAudio)
      // Loading ends on every path; the text and the generation flag are untouched.
      ensures !loading && inputText == old(inputText) && generating == old(generating)
    {
      ghost var events := FetchEvents(projectId, projectResult, samplesResult, audioResult);
      ghost var before := log;
      log := log + [Query(ProjectRow, projectId)];
      if projectResult.Failure? {
        log := log + [Toast(LoadFailed)];
        assert events == [Query(ProjectRow, projectId), Toast(LoadFailed)];
        assert log == before + events;
      } else {
        project := Some(projectResult.value);
        log := log + [Query(SampleRows, projectId)];
        if samplesResult.Failure? {
          log := log + [Toast(LoadFailed)];
          assert events == [Query(ProjectRow, projectId), Query(SampleRows, projectId), Toast(LoadFailed)];
          assert log == before + events;
        } else {
          samples := OrEmpty(samplesResult.value);
          log := log + [Query(AudioRows, projectId)];
          if audioResult.Failure? {
            log := log + [Toast(LoadFailed)];
            assert events == [Query(ProjectRow, projectId), Query(SampleRows, projectId), Query(AudioRows, projectId),
                              Toast(LoadFailed)];
            assert log == before + events;
          } else {
            generatedAudio := OrEmpty(audioResult.value);
            assert events == [Query(ProjectRow, projectId), Query(SampleRows, projectId), Query(AudioRows, projectId)];
            assert log == before + events;
          }
        }
      }
      loading := false;
    }

    /** Sends the request; only ever done while the generation flag is set. */
    method Dispatch(body: GenerateBody)
      requires generating
      modifies this`log
      ensures log == old(log) + [PostGenerate(body)]
    {
      log := log + [PostGenerate(body)];
    }

    /** `generateSpeech`, with the response status as input; the refresh it starts is recorded as an event. */
    method GenerateSpeech(responseOk: bool)
      modifies this
      ensures log == old(log) + GenerateEvents(projectId, old(inputText), old(samples), responseOk)
      // The guards leave the state alone; after them the flag is always cleared.
      ensures generating == if CanGenerate(old(inputText), old(samples)) then false else old(generating)
      // Only a successful request clears the text.
      ensures inputText == if CanGenerate(old(inputText), old(samples)) && responseOk then "" else old(inputText)
      ensures project == old(project) && samples == old(samples) && generatedAudio == old(generatedAudio)
      ensures loading == old(loading)
    {
      ghost var events := GenerateEvents(projectId, inputText, samples, responseOk);
      if AllWhitespace(inputText) {
        log := log + [Toast(EnterText)];
        return;
      }
      if |samples| == 0 {
        log := log + [Toast(NeedSample)];
        return;
      }
      ghost var before := log;
      var body := GenerateBody(projectId, inputText, SampleRefs(samples));
      generating := true;
      Dispatch(body);
      if responseOk {
        log := log + [Toast(Generated)];
        inputText := "";
        log := log + [Refetch];
        assert events == [PostGenerate(body), Toast(Generated), Refetch];
        assert log == before + events;
      } else {
        log := log + [Toast(GenerateFailed)];
        assert events == [PostGenerate(body), Toast(GenerateFailed)];
        assert log == before + events;
      }
      generating := false;
    }
  }
}
