# Voice Clone — a verified model of its core

Voice Clone is a small web application. A signed-in user creates *voice projects*, records *voice samples* in
the browser, and asks a speech synthesis provider to read text aloud. It has two halves:

- **React components.** `CreateProjectDialog` creates a project, `VoiceRecorder` records and uploads a sample, and
  `ProjectDetail` loads a project, lists its samples and generated audio, and starts a generation.
- **Serverless handlers.**
  - `upload-voice-sample` decodes the base64 data URL of a recording, stores it as a `.wav` object, and inserts a
    `voice_samples` row.
  - `generate-speech` asks the provider for an MP3, stores it, and inserts a `generated_audio` row.

This Dafny project models the logic of those five files:

| file | what it models |
|---|---|
| `Wrappers.dfy` | `Option` and `Result` |
| `Text.dfy` | JavaScript's white space, `trim`, number-to-decimal rendering, `padStart`, and splitting at a character |
| `Schema.dfy` | The rows, the request bodies, the HTTP responses, the toasts, and the effects a handler has on storage and the database |
| `UploadVoiceSample.dfy` | The data-URL payload split, the white-space sanitising object key, and the upload handler |
| `GenerateSpeech.dfy` | The generated object key and the generation handler |
| `VoiceRecorder.dfy` | `formatTime`, and `uploadSample` both as written and as intended (see Findings) |
| `CreateProjectDialog.dfy` | `handleSubmit` and the normalised insert record |
| `ProjectDetail.dfy` | `fetchProjectData`, `generateSpeech`, the request's sample list, and the display fallbacks |

**How the model is built.**
- The outside world appears as parameters: the clock, the provider's reply, the answers of storage, the database
  and authentication, the base64 decoder, and the public-URL function.
- Each handler is a method. It returns the HTTP response and a trace of what it did to the outside world: the
  synthesis request, each storage write that was accepted, and each row insert that was accepted.
- Each component is a class. Its fields are the component's state, plus a `log` of what the user and the backend
  can observe: requests, toasts and callbacks.
- Each action is a method. Its postcondition ties the new `log` to a pure function of the old state and the
  outside answers, and states the new state.
- The properties of the source are proved about those functions. Requests go through a `Dispatch` method that
  requires the busy flag, so "the flag is set while a request is in flight" is checked by the verifier.

**Details of the code that the model keeps:**
- `generate-speech` stores its object under `<projectId>/generated/<timestamp>_generated.mp3`, with the project
  id in front.
- `uploadSample` refuses to start when there is no recording, as well as when the name is blank.
- With no samples loaded, `generateSpeech` shows a destructive error toast.

## Model

| member | source | states |
|---|---|---|
| Text.IsWhitespace | supabase/functions/upload-voice-sample/index.ts:28 | the `\s` character class, which is also what `trim` removes: the ECMAScript WhiteSpace and LineTerminator characters |
| Text.TrimStart | src/components/CreateProjectDialog.tsx:35 | drops the leading white space; the result is never longer than the input (`TrimStartDrops` says what is kept) |
| Text.TrimEnd | src/components/CreateProjectDialog.tsx:35 | drops the trailing white space; the result is never longer than the input (`TrimEndDrops` says what is kept) |
| Text.Trim | src/components/CreateProjectDialog.tsx:35 | `String.prototype.trim`: the trailing white space dropped after the leading white space |
| Text.TrimEmptyIff | src/components/CreateProjectDialog.tsx:24 | `!s.trim()` holds exactly when every character of `s` is JavaScript white space |
| Text.TrimIdempotent | src/components/CreateProjectDialog.tsx:35 | trimming an already trimmed name changes nothing |
| Text.TrimEnds | src/components/CreateProjectDialog.tsx:35-36 | a trimmed string is empty or neither starts nor ends with white space |
| Text.TrimStartDrops | supabase/functions/upload-voice-sample/index.ts:28 | dropping leading white space keeps a suffix that does not start with white space and drops only white space |
| Text.TrimEndDrops | src/components/CreateProjectDialog.tsx:35 | dropping trailing white space keeps a prefix that does not end with white space and drops only white space |
| Text.NatToString | supabase/functions/upload-voice-sample/index.ts:28 | the decimal rendering of a timestamp has at least one digit, only digits, no leading zero, and a single digit exactly below 10 |
| Text.NatToStringRoundTrip | src/components/VoiceRecorder.tsx:23-25 | reading the decimal rendering back gives the number |
| Text.NatToStringInjective | supabase/functions/generate-speech/index.ts:57 | different timestamps render differently |
| Text.LeadingZero | src/components/VoiceRecorder.tsx:25 | a padding `0` in front of digits keeps them digits and keeps their value |
| Text.PadStart | src/components/VoiceRecorder.tsx:25 | `padStart` gives the longer of the string and the width, ends with the string, and is filled in front |
| Text.IntToString | src/components/ProjectDetail.tsx:202 | `${n}` of an integer reads back as `n`: a non-negative number from its digits, a negative one from the digits after a leading `-` |
| Text.Before | supabase/functions/upload-voice-sample/index.ts:24 | the part before the first separator is a prefix without the separator, followed by it or by the end |
| Text.BeforeFirst | supabase/functions/upload-voice-sample/index.ts:24 | in `u + sep + x` with no separator in `u`, the part before the first separator is `u` |
| Text.SplitAtSeparator | supabase/functions/upload-voice-sample/index.ts:28 | a string splits in only one way at its first separator |
| Text.StampedNameInjective | supabase/functions/upload-voice-sample/index.ts:28 | after a fixed prefix, `<timestamp>_<tail>` determines both the timestamp and the tail |
| UploadVoiceSample.SecondField | supabase/functions/upload-voice-sample/index.ts:24 | `split(',')[1]` is undefined exactly when there is no comma; otherwise it is comma-free and starts right after the first comma |
| UploadVoiceSample.SecondFieldOf | supabase/functions/upload-voice-sample/index.ts:24 | after a comma-free head, the second field runs up to the next comma or to the end |
| UploadVoiceSample.DataUrlPayload | supabase/functions/upload-voice-sample/index.ts:24-25 | for `data:<type>;base64,<payload>` exactly the payload is handed to `atob` |
| UploadVoiceSample.Base64Argument | supabase/functions/upload-voice-sample/index.ts:24-25 | what `atob` receives: the second field of the data URL, or the text `undefined` when there is no comma, because `atob` converts `undefined` to a string |
| UploadVoiceSample.Sanitize | supabase/functions/upload-voice-sample/index.ts:28 | `replace(/\s+/g, '_')` leaves no white space |
| UploadVoiceSample.Fields | supabase/functions/upload-voice-sample/index.ts:28 | `split(/\s+/)`: the pieces between maximal white-space runs, with an empty piece before a leading run and after a trailing one; always at least one piece |
| UploadVoiceSample.SanitizeIsSplitJoin | supabase/functions/upload-voice-sample/index.ts:28 | the replacement equals splitting at the maximal white-space runs and joining the pieces with `_` |
| UploadVoiceSample.FieldsAreClean | supabase/functions/upload-voice-sample/index.ts:28 | no piece between white-space runs contains white space |
| UploadVoiceSample.FieldsKeepText | supabase/functions/upload-voice-sample/index.ts:28 | together the pieces hold every non-white-space character of the name, in order |
| UploadVoiceSample.SanitizeKeepsClean | supabase/functions/upload-voice-sample/index.ts:28 | a name without white space is used unchanged |
| UploadVoiceSample.SanitizeRun | supabase/functions/upload-voice-sample/index.ts:28 | a maximal white-space run after a clean stretch becomes exactly one `_`; with `SanitizeKeepsClean` this fixes the replacement on every name |
| UploadVoiceSample.SanitizeCleanPrefix | supabase/functions/upload-voice-sample/index.ts:28 | a stretch without white space is copied unchanged in front of the rest |
| UploadVoiceSample.SanitizeIdempotent | supabase/functions/upload-voice-sample/index.ts:28 | sanitising a sanitised name changes nothing |
| UploadVoiceSample.SampleFileName | supabase/functions/upload-voice-sample/index.ts:28 | the key starts with `<projectId>/`, ends with `.wav`, and has no white space after the slash |
| UploadVoiceSample.SampleFileNameInjective | supabase/functions/upload-voice-sample/index.ts:28 | two keys of one project are equal exactly when they have the same millisecond and the same sanitised name |
| UploadVoiceSample.Handle | supabase/functions/upload-voice-sample/index.ts:10-72 | preflight answered with no effects; otherwise success or 400 with the error message; undecodable audio or a storage error means nothing is written; a database error leaves the write in place; success is exactly one write and then one insert with the name as typed and the duration as sent |
| GenerateSpeech.GeneratedFileName | supabase/functions/generate-speech/index.ts:57 | the key starts with `<projectId>/generated/` and ends with `_generated.mp3` |
| GenerateSpeech.GeneratedFileNameInjective | supabase/functions/generate-speech/index.ts:57 | two keys of one project are equal exactly when they have the same millisecond |
| GenerateSpeech.KeyMissing | supabase/functions/generate-speech/index.ts:19 | `!elevenlabsApiKey`: the key is unset or empty |
| GenerateSpeech.Handle | supabase/functions/generate-speech/index.ts:10-100 | preflight answered with no effects; a missing key fails before any call; the provider is called at most once, first, always with the fixed voice and never with the samples; a provider, storage or database failure stops what follows; a database error leaves the write in place; success is one call, one write, then one insert of the text as sent |
| VoiceRecorder.TwoDigits | src/components/VoiceRecorder.tsx:24-25 | the seconds are two digits that read back as the seconds |
| VoiceRecorder.FormatTime | src/components/VoiceRecorder.tsx:22-26 | at least one digit of minutes, a colon, then exactly two characters |
| VoiceRecorder.FormatTimeSplit | src/components/VoiceRecorder.tsx:23-25 | before the colon are the uncapped minutes, after it the two-digit seconds |
| VoiceRecorder.FormatTimeRoundTrip | src/components/VoiceRecorder.tsx:22-26 | both sides are digits worth `s div 60` and `s mod 60`, and reading `m*60 + ss` back recovers `s` |
| VoiceRecorder.FormatTimeInjective | src/components/VoiceRecorder.tsx:22-26 | different durations display differently |
| VoiceRecorder.CanSend | src/components/VoiceRecorder.tsx:38 | the guard of `uploadSample`: a recording exists and the name is not all white space |
| VoiceRecorder.UploadButtonEnabled | src/components/VoiceRecorder.tsx:172 | the negation of `uploading \|\| !sampleName.trim()` |
| VoiceRecorder.UploadButtonRule | src/components/VoiceRecorder.tsx:172 | the upload button is enabled exactly when nothing is uploading and the name is not blank; with a recording, an enabled button passes the guard |
| VoiceRecorder.UploadEvents | src/components/VoiceRecorder.tsx:37-90 | no recording or a blank name gives only the error toast; otherwise one request first, with the name untrimmed and the duration unchanged; the refresh callback exactly on success and only last; a failure ends with the failure toast |
| VoiceRecorder.Recorder.constructor | src/components/VoiceRecorder.tsx:16-19 | a new recorder has no name, no recording, no upload and an empty log |
| VoiceRecorder.Recorder.Dispatch | src/components/VoiceRecorder.tsx:54-65 | the request is sent only while the upload flag is set |
| VoiceRecorder.Recorder.UploadSample | src/components/VoiceRecorder.tsx:37-90 | the log grows by `UploadEvents`; the guard leaves the state alone; after it the flag is cleared; only success resets the recording and clears the name |
| VoiceRecorder.Recorder.StartUploadAsWritten | src/components/VoiceRecorder.tsx:37-50 | as written: the guard's toast, or a scheduled callback with the flag already cleared and nothing sent yet |
| VoiceRecorder.Recorder.OnLoadEndAsWritten | src/components/VoiceRecorder.tsx:51-78 | as written: the request, then on success the toast, the reset and the callback; on failure nothing more |
| VoiceRecorder.UploadFailureIsSilentAsWritten | src/components/VoiceRecorder.tsx:47-89 | as written, a failed upload of a named recording shows only the request, sent while the flag is already cleared |
| VoiceRecorder.FailedUploadIsReported | src/components/VoiceRecorder.tsx:80-86 | as intended, a failed upload of a named recording is followed by the failure toast |
| CreateProjectDialog.NewProjectRecord | src/components/CreateProjectDialog.tsx:34-38 | the insert is a project row owned by the signed-in user |
| CreateProjectDialog.NormalizeDescription | src/components/CreateProjectDialog.tsx:36 | `description.trim() \|\| null`: the trimmed text, or no description when the trimmed text is empty |
| CreateProjectDialog.NormalizeDescriptionSpec | src/components/CreateProjectDialog.tsx:36 | the stored description is absent exactly for a blank one, and is otherwise the trimmed, non-empty text |
| CreateProjectDialog.NewProjectRecordFields | src/components/CreateProjectDialog.tsx:34-38 | for a name that passed the guard, the stored name is the non-empty trimmed name, and an empty description is never stored |
| CreateProjectDialog.SubmitEvents | src/components/CreateProjectDialog.tsx:22-60 | a blank name does nothing; otherwise the user lookup comes first; only with a user is the normalised record inserted, once, second; the callback happens exactly on a successful insert; every failure ends with the error toast |
| CreateProjectDialog.SubmitButtonEnabled | src/components/CreateProjectDialog.tsx:109 | the negation of `isLoading \|\| !name.trim()` |
| CreateProjectDialog.SubmitButtonRule | src/components/CreateProjectDialog.tsx:109 | the submit button is enabled exactly when nothing is loading and the name is not blank; an enabled button passes the guard |
| CreateProjectDialog.Dialog.constructor | src/components/CreateProjectDialog.tsx:17-19 | a new dialog has empty fields, is not loading, and has an empty log |
| CreateProjectDialog.Dialog.Dispatch | src/components/CreateProjectDialog.tsx:26-38 | the lookup and the insert are sent only while the loading flag is set |
| CreateProjectDialog.Dialog.HandleSubmit | src/components/CreateProjectDialog.tsx:22-60 | the log grows by `SubmitEvents`; the guard leaves the state alone; after it the flag is cleared; only a successful insert clears both fields |
| ProjectDetail.DescriptionText | src/components/ProjectDetail.tsx:168 | something is always shown: the description when present and non-empty, else `No description` |
| ProjectDetail.CreatedProjectDescription | src/components/ProjectDetail.tsx:168 | a project created by the dialog shows its trimmed description, or `No description` exactly when a blank one was typed |
| ProjectDetail.DurationText | src/components/ProjectDetail.tsx:202 | `Unknown duration` is shown exactly for a missing or zero length; any other length ends in `s` |
| ProjectDetail.DurationTextRoundTrip | src/components/ProjectDetail.tsx:202 | any non-zero length, negative ones included, is shown as `${n}` followed by `s`, and the text before the `s` reads back as the length |
| ProjectDetail.SampleRefs | src/components/ProjectDetail.tsx:107 | the request lists every loaded sample, in the same order, with its name and URL |
| ProjectDetail.GenerateRequest | src/components/ProjectDetail.tsx:104-108 | the posted body: the project id, the text exactly as typed, and the mapped samples |
| ProjectDetail.CanGenerate | src/components/ProjectDetail.tsx:79-95 | the two guards of `generateSpeech`: the text is not all white space, and at least one sample is loaded |
| ProjectDetail.GenerateEvents | src/components/ProjectDetail.tsx:78-131 | the text guard runs before the sample guard; otherwise one request first, with the text untrimmed and all samples; the refetch exactly on success and only last; a failure ends with the failure toast |
| ProjectDetail.GenerateButtonEnabled | src/components/ProjectDetail.tsx:244 | the negation of `generating \|\| !inputText.trim() \|\| samples.length === 0` |
| ProjectDetail.GenerateButtonRule | src/components/ProjectDetail.tsx:244 | the generate button is enabled exactly when nothing is generating and both guards pass; an enabled button sends the request |
| ProjectDetail.FetchEvents | src/components/ProjectDetail.tsx:35-76 | the project is queried first; each later query is sent only when every earlier one succeeded; the error toast appears exactly when some query failed, and only last |
| ProjectDetail.OrEmpty | src/components/ProjectDetail.tsx:55 | `data \|\| []` (also at line 65): the rows the database answered, or the empty list when it answered no data |
| ProjectDetail.Page.constructor | src/components/ProjectDetail.tsx:22-27 | a new page has nothing loaded, empty text, is not generating, and is loading |
| ProjectDetail.Page.FetchProjectData | src/components/ProjectDetail.tsx:35-76 | the log grows by `FetchEvents`; each piece of state is replaced only when its query and all earlier ones succeeded, with no data read as the empty list; loading always ends |
| ProjectDetail.Page.Dispatch | src/components/ProjectDetail.tsx:97-109 | the request is sent only while the generating flag is set |
| ProjectDetail.Page.GenerateSpeech | src/components/ProjectDetail.tsx:78-131 | the log grows by `GenerateEvents`; the guards leave the state alone; after them the flag is cleared; only success clears the text; the loaded data is untouched |

## Left out

- JSX rendering, navigation, `playAudio`, the loading and "Project not found" screens, and `console.error`. They are presentation only. `Dashboard.tsx` and `ProjectCard.tsx` are not part of this model; the only logic in `ProjectCard` is the `No description` fallback, which `ProjectDetail.DescriptionText` models.
- The recording hook `useVoiceRecording` is not part of this model. Its captured recording and duration are fields of `Recorder` that callers set.
- `FileReader.readAsDataURL` and `atob` are browser built-ins. The data URL and the decoder are parameters.
- The Supabase client (authentication, queries, storage, `getPublicUrl`, `createClient` and its environment variables) and the provider's HTTP API are foreign services. Their answers are parameters, and the public URL is an uninterpreted function.
- The provider request's headers and the `voice_settings` floats (stability 0.5, similarity boost 0.75) are floating-point tuning. A synthesis call records only the voice, the model and the text.
- `Date.now()` is a parameter. `toLocaleDateString` is locale formatting.
- The `created_at` ordering of the lists is done by the database. The model takes each list as the database answers it.
- Text.NatToString: JavaScript renders numbers of 1e21 and above in exponent form. Timestamps and durations are far below that, so the model renders every natural number in plain digits.
- `formatTime` of a negative or fractional number is not modelled. Recorded durations are whole non-negative seconds.
- A JSON body whose fields have the wrong types is not modelled. Only a body that fails to parse is modelled.
- Each client action is one atomic step: a click, the awaited calls, and the state updates. Interleaved clicks, React's batching of state updates, and stale closures are not modelled. The busy flags' effect on sending is captured through each `Dispatch` precondition. The one place where the step is not atomic in the source, `uploadSample`, is modelled separately as written (see Findings).
- ProjectDetail.Page.GenerateSpeech: the `fetchProjectData()` it starts without awaiting is only recorded as a `Refetch` event. Its effect is a separate `FetchProjectData` call.
- A failed `getUser` call and a missing user both end in the creation-failure toast. The model gives both as "no user".
- The `if (projectId)` guard before the first load is not modelled. The page is always built with its route parameter.

## Findings

| source | as written | input that shows it | evidently intended | confidence | as-written member | corrected member |
|---|---|---|---|---|---|---|
| src/components/VoiceRecorder.tsx:47-89 | The request is sent from the `onloadend` callback. That callback runs after the `finally` block has already cleared `uploading`. Its `throw` on a non-ok response is outside the `try`, so no failure toast is shown. | A recording named `A` whose upload answers with status 500 | The upload button stays disabled while the request is in flight, and a failed upload shows "Failed to upload voice sample" | not executed | VoiceRecorder.UploadFailureIsSilentAsWritten | VoiceRecorder.FailedUploadIsReported |
