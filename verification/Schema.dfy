/**
 * The data the components and the two serverless handlers exchange: the rows of
 * the three tables, the JSON bodies of the two POST endpoints, the HTTP
 * responses the handlers build, the effects they have on storage and the
 * database, and the toast notices of the UI.
 */
module Schema {
  import opened Wrappers

  type Bytes = seq<bv8>

  /** A row of `voice_projects` as the client reads it back. */
  datatype Project = Project(id: string, name: string, description: Option<string>)

  /** A row of `voice_samples` as the client reads it back. */
  datatype VoiceSample = VoiceSample(id: string, name: string, audioUrl: string, durationSeconds: Option<int>)

  /** A row of `generated_audio` as the client reads it back. */
  datatype GeneratedAudio = GeneratedAudio(id: string, textInput: string, audioUrl: string)

  /** The records the application inserts; the store fills in identifiers and timestamps. */
  datatype NewRow =
    | NewProject(name: string, description: Option<string>, userId: string)
    | NewVoiceSample(projectId: string, name: string, audioUrl: string, durationSeconds: int)
    | NewGeneratedAudio(projectId: string, textInput: string, audioUrl: string)

  /** Body of `POST /upload-voice-sample`; `audioData` is a base64 data URL. */
  datatype UploadBody = UploadBody(projectId: string, name: string, audioData: string, duration: int)

  /** One entry of the `samples` list sent to `POST /generate-speech`. */
  datatype SampleRef = SampleRef(name: string, audioUrl: string)

  /** Body of `POST /generate-speech`. */
  datatype GenerateBody = GenerateBody(projectId: string, text: string, samples: seq<SampleRef>)

  /** An incoming request: its method and its JSON body, or the message of the error parsing it threw. */
  datatype Request<B> = Request(httpMethod: string, body: Result<B>)

  datatype Payload = PlainText(text: string) | SuccessJson | ErrorJson(error: string)

  datatype Response = Response(status: nat, payload: Payload, headers: seq<(string, string)>)

  const CorsHeaders: seq<(string, string)> := [
    ("Access-Control-Allow-Origin", "*"),
    ("Access-Control-Allow-Headers", "authorization, x-client-info, apikey, content-type")
  ]

  const JsonHeaders: seq<(string, string)> := CorsHeaders + [("Content-Type", "application/json")]

  /** The answer to a CORS preflight (`OPTIONS`) request. */
  const Preflight := Response(200, PlainText("ok"), CorsHeaders)

  /** `{ success: true }` with the default status. */
  const Succeeded := Response(200, SuccessJson, JsonHeaders)

  /** What the handlers' catch block answers for an error with the given message. */
  function Failed(message: string): Response {
    Response(400, ErrorJson(message), JsonHeaders)
  }

  /**
   * What a handler did to the outside world, in order: a request to the speech
   * synthesis provider, and each storage write and row insert that the backend
   * accepted. A write or insert that the backend refused leaves no entry.
   */
  datatype Effect =
    | SynthesisCall(voiceId: string, modelId: string, text: string)
    | StorageWrite(bucket: string, path: string, contentType: string, data: Bytes)
    | RowInsert(table: string, row: NewRow)

  /** A toast shown by a component. */
  datatype Notice = Notice(title: string, description: string, destructive: bool)
}
