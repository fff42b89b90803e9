/**
 * The `generate-speech` serverless handler: it asks the speech synthesis
 * provider to read `text` with a fixed voice, writes the returned MP3 to the
 * `generated-audio` bucket under `<projectId>/generated/<timestamp>_generated.mp3`,
 * and inserts a `generated_audio` row that points at the object's public URL.
 * The `samples` of the request are never used.
 */
module GenerateSpeech {
  import opened Wrappers
  import opened Text
  import opened Schema

  /** The provider voice every request is synthesised with, whatever samples the project holds. */
  const VoiceId := "9BWtsMINqrJLrRacOk9x"
  const ModelId := "eleven_multilingual_v2"
  const Bucket := "generated-audio"
  const Table := "generated_audio"
  const ContentType := "audio/mpeg"
  const MissingKey := "ElevenLabs API key not found"
  const SynthesisFailed := "Failed to generate speech"

  /** What the provider answered: whether the status was a success, and the audio it sent. */
  datatype ProviderReply = ProviderReply(ok: bool, audio: Bytes)

  /** `${projectId}/generated/${Date.now()}_generated.mp3`, the key of a generated file. */
  function GeneratedFileName(projectId: string, now: nat): (r: string)
    ensures |r| > |projectId| + 25 && r[..|projectId| + 11] == projectId + "/generated/"
    ensures r[|r| - 14..] == "_generated.mp3"
  {
    projectId + "/generated/" + NatToString(now) + "_generated.mp3"
  }

  /** Within one project, two generated files share a key only when they were stored in the same millisecond. */
  lemma GeneratedFileNameInjective(projectId: string, t1: nat, t2: nat)
    ensures GeneratedFileName(projectId, t1) == GeneratedFileName(projectId, t2) <==> t1 == t2
  {
    var p := projectId + "/generated/";
    GeneratedFileNameStamped(projectId, t1);
    GeneratedFileNameStamped(projectId, t2);
    if GeneratedFileName(projectId, t1) == GeneratedFileName(projectId, t2) {
      StampedNameInjective(p, t1, "generated.mp3", t2, "generated.mp3");
    }
  }

  /** The key as a prefix, a time stamp, an underscore and a tail. */
  lemma GeneratedFileNameStamped(projectId: string, now: nat)
    ensures GeneratedFileName(projectId, now) == projectId + "/generated/" + (NatToString(now) + "_" + "generated.mp3")
  {
  }

  /** `!elevenlabsApiKey`: an unset or empty key. */
  predicate KeyMissing(apiKey: Option<string>) {
    apiKey.None? || apiKey.value == ""
  }

  /**
   * One request to the handler. The outside world is given as parameters:
   * `apiKey` is the `ELEVENLABS_API_KEY` environment variable, `provider` is the
   * provider's reply (or the message of the error `fetch` threw), `now` is
   * `Date.now()`, `uploadError` and `dbError` are what storage and the database
   * answer, and `publicUrl(bucket, path)` is the URL storage issues for an object.
   */
  method Handle(req: Request<GenerateBody>, apiKey: Option<string>, provider: Result<ProviderReply>, now: nat,
                uploadError: Option<string>, dbError: Option<string>, publicUrl: (string, string) -> string)
    returns (resp: Response, trace: seq<Effect>)
    // A preflight request is answered with the CORS headers and touches nothing.
    ensures req.httpMethod == "OPTIONS" ==> resp == Preflight && trace == []
    // Every other request either succeeds or fails with status 400 and a JSON error message.
    ensures req.httpMethod != "OPTIONS" ==> resp == Succeeded || (resp.status == 400 && resp.payload.ErrorJson?)
    // Whatever happens, the provider is asked at most once, first, and always with the fixed voice.
    ensures forall i :: 0 <= i < |trace| && trace[i].SynthesisCall? ==> i == 0 && trace[i].voiceId == VoiceId
    ensures req.httpMethod != "OPTIONS" && req.body.Failure? ==> resp == Failed(req.body.message) && trace == []
    // Without a key nothing is called, written or inserted.
    ensures req.httpMethod != "OPTIONS" && req.body.Success? && KeyMissing(apiKey) ==>
      resp == Failed(MissingKey) && trace == []
    ensures req.httpMethod != "OPTIONS" && req.body.Success? && !KeyMissing(apiKey) ==>
      var body := req.body.value;
      var call := SynthesisCall(VoiceId, ModelId, body.text);
      var path := GeneratedFileName(body.projectId, now);
      var audio := if provider.Success? then provider.value.audio else [];
      var write := StorageWrite(Bucket, path, ContentType, audio);
      var insert := RowInsert(Table, NewGeneratedAudio(body.projectId, body.text, publicUrl(Bucket, path)));
      && (provider.Failure? ==> resp == Failed(provider.message) && trace == [call])
      // A failed synthesis aborts the request: nothing is written or inserted.
      && (provider.Success? && !provider.value.ok ==> resp == Failed(SynthesisFailed) && trace == [call])
      && (provider.Success? && provider.value.ok && uploadError.Some? ==>
            resp == Failed(uploadError.value) && trace == [call])
      // The database refuses the row: the stored audio is not removed.
      && (provider.Success? && provider.value.ok && uploadError.None? && dbError.Some? ==>
            resp == Failed(dbError.value) && trace == [call, write])
      // Success: one call, one write, then one insert of the text as sent.
      && (provider.Success? && provider.value.ok && uploadError.None? && dbError.None? ==>
            resp == Succeeded && trace == [call, write, insert])
  {
    if req.httpMethod == "OPTIONS" {
      return Preflight, [];
    }
    if req.body.Failure? {
      return Failed(req.body.message), [];
    }
    var body := req.body.value;
    if KeyMissing(apiKey) {
      return Failed(MissingKey), [];
    }
    var voiceId := VoiceId;
    trace := [SynthesisCall(voiceId, ModelId, body.text)];
    if provider.Failure? {
      return Failed(provider.message), trace;
    }
    if !provider.value.ok {
      return Failed(SynthesisFailed), trace;
    }
    var audioBuffer := provider.value.audio;
    var fileName := GeneratedFileName(body.projectId, now);
    if uploadError.Some? {
      return Failed(uploadError.value), trace;
    }
    trace := trace + [StorageWrite(Bucket, fileName, ContentType, audioBuffer)];
    var url := publicUrl(Bucket, fileName);
    if dbError.Some? {
      return Failed(dbError.value), trace;
    }
    trace := trace + [RowInsert(Table, NewGeneratedAudio(body.projectId, body.text, url))];
    resp := Succeeded;
  }
}
