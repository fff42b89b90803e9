/**
 * The `upload-voice-sample` serverless handler: it takes a recorded sample as a
 * base64 data URL, writes the decoded audio to the `voice-samples` bucket under
 * `<projectId>/<timestamp>_<name>.wav`, and inserts a `voice_samples` row that
 * points at the object's public URL.
 */
module UploadVoiceSample {
  import opened Wrappers
  import opened Text
  import opened Schema

  const Bucket := "voice-samples"
  const Table := "voice_samples"
  const ContentType := "audio/wav"

  // ---------------------------------------------------------------------------
  // The payload of a data URL
  // ---------------------------------------------------------------------------

  /** `s.split(',')[1]`: the text between the first comma and the next one (or the end); `None` stands for
      the `undefined` that JavaScript yields when `s` has no comma. */
  function SecondField(s: string): (r: Option<string>)
    ensures r.None? <==> ',' !in s
    ensures r.Some? ==> ',' !in r.value
    ensures r.Some? ==> var i := |Before(s, ',')|;
      i < |s| && s[i] == ',' && |r.value| <= |s| - i - 1 && s[i + 1..i + 1 + |r.value|] == r.value
  {
    var head := Before(s, ',');
    if |head| == |s| then None else Some(Before(s[|head| + 1..], ','))
  }

  /** The second field is found wherever it stands: after a comma-free head, up to the next comma or the end. */
  lemma SecondFieldOf(head: string, field: string, rest: string)
    requires ',' !in head && ',' !in field
    requires rest == [] || rest[0] == ','
    ensures SecondField(head + "," + field + rest) == Some(field)
  {
    var s := head + "," + field + rest;
    var tail := field + rest;
    assert s == head + [','] + tail;
    BeforeFirst(head, tail, ',');
    SplitAt(s, head + [','], tail);
    if rest == [] {
      assert tail == field;
      BeforeAbsent(field, ',');
    } else {
      assert tail == field + [','] + rest[1..];
      BeforeFirst(field, rest[1..], ',');
    }
    assert SecondField(s) == Some(Before(tail, ','));
  }

  /** For a data URL `data:<type>;base64,<payload>` the handler decodes exactly the payload. */
  lemma DataUrlPayload(header: string, payload: string)
    requires ',' !in header && ',' !in payload
    ensures SecondField(header + "," + payload) == Some(payload)
  {
    SecondFieldOf(header, payload, []);
    assert header + "," + payload + [] == header + "," + payload;
  }

  /** The text handed to `atob`: the second field, or the string `"undefined"` that `undefined` converts to. */
  function Base64Argument(audioData: string): string {
    match SecondField(audioData)
    case Some(p) => p
    case None => "undefined"
  }

  // ---------------------------------------------------------------------------
  // The object key
  // ---------------------------------------------------------------------------

  /** `name.replace(/\s+/g, '_')`: each maximal run of white space becomes one underscore. */
  function Sanitize(s: string): (r: string)
    ensures NoWhitespace(r)
    decreases |s|
  {
    if s == [] then []
    else if IsWhitespace(s[0]) then "_" + Sanitize(TrimStart(s[1..]))
    else [s[0]] + Sanitize(s[1..])
  }

  /** `s.split(/\s+/)`: the pieces between the maximal runs of white space (an empty piece before a leading run
      and after a trailing one). This is an independent description of what `Sanitize` does. */
  function Fields(s: string): (r: seq<string>)
    ensures |r| >= 1
    decreases |s|
  {
    if s == [] then [[]]
    else if IsWhitespace(s[0]) then [[]] + Fields(TrimStart(s[1..]))
    else var f := Fields(s[1..]); [[s[0]] + f[0]] + f[1..]
  }

  /** `fs.join(sep)`. */
  function Join(fs: seq<string>, sep: string): string
    requires |fs| >= 1
  {
    if |fs| == 1 then fs[0] else fs[0] + sep + Join(fs[1..], sep)
  }

  function Concat(fs: seq<string>): string {
    if fs == [] then [] else fs[0] + Concat(fs[1..])
  }

  /** The characters of `s` that are not white space, in order. */
  function NonWhitespace(s: string): string {
    if s == [] then [] else (if IsWhitespace(s[0]) then [] else [s[0]]) + NonWhitespace(s[1..])
  }

  lemma {:induction false} AllWhitespaceHasNoText(s: string)
    requires AllWhitespace(s)
    ensures NonWhitespace(s) == []
  {
    if s != [] {
      AllWhitespaceHasNoText(s[1..]);
    }
  }

  /** The replacement is the same as splitting at the white-space runs and joining with `_`. */
  lemma {:induction false} SanitizeIsSplitJoin(s: string)
    ensures Sanitize(s) == Join(Fields(s), "_")
    decreases |s|
  {
    if s == [] {
    } else if IsWhitespace(s[0]) {
      SanitizeIsSplitJoin(TrimStart(s[1..]));
    } else {
      var f := Fields(s[1..]);
      SanitizeIsSplitJoin(s[1..]);
      var g := [[s[0]] + f[0]] + f[1..];
      if |f| > 1 {
        assert g[1..] == f[1..];
      }
    }
  }

  /** No piece contains white space. */
  lemma {:induction false} FieldsAreClean(s: string)
    ensures forall k :: 0 <= k < |Fields(s)| ==> NoWhitespace(Fields(s)[k])
    decreases |s|
  {
    if s == [] {
    } else if IsWhitespace(s[0]) {
      var t := TrimStart(s[1..]);
      FieldsAreClean(t);
      assert Fields(s) == [[]] + Fields(t);
    } else {
      var f := Fields(s[1..]);
      FieldsAreClean(s[1..]);
      assert NoWhitespace([s[0]] + f[0]) by {
        assert forall i :: 1 <= i < |[s[0]] + f[0]| ==> ([s[0]] + f[0])[i] == f[0][i - 1];
      }
    }
  }

  /** Together the pieces hold every character of `s` that is not white space, in order. */
  lemma {:induction false} FieldsKeepText(s: string)
    ensures Concat(Fields(s)) == NonWhitespace(s)
    decreases |s|
  {
    if s == [] {
    } else if IsWhitespace(s[0]) {
      FieldsKeepText(TrimStart(s[1..]));
      DropRunKeepsText(s);
    } else {
      FieldsKeepText(s[1..]);
      ConcatExtendFirst(s[0], Fields(s[1..]));
    }
  }

  /** Prefixing the first piece with `c` prefixes the concatenation with `c`. */
  lemma ConcatExtendFirst(c: char, f: seq<string>)
    requires |f| >= 1
    ensures Concat([[c] + f[0]] + f[1..]) == [c] + Concat(f)
  {
    var g := [[c] + f[0]] + f[1..];
    assert g[1..] == f[1..];
    calc {
      Concat(g);
      ([c] + f[0]) + Concat(f[1..]);
      [c] + (f[0] + Concat(f[1..]));
      [c] + Concat(f);
    }
  }

  /** The step of `FieldsKeepText` for a string that starts with white space. */
  lemma DropRunKeepsText(s: string)
    requires s != [] && IsWhitespace(s[0])
    requires Concat(Fields(TrimStart(s[1..]))) == NonWhitespace(TrimStart(s[1..]))
    ensures Concat(Fields(s)) == NonWhitespace(s)
  {
    var t := TrimStart(s[1..]);
    TrimStartKeepsText(s[1..]);
    ConcatEmptyFirst(Fields(t));
  }

  /** Leading white space holds no text. */
  lemma TrimStartKeepsText(u: string)
    ensures NonWhitespace(TrimStart(u)) == NonWhitespace(u)
  {
    var t := TrimStart(u);
    TrimStartDrops(u);
    var w := u[..|u| - |t|];
    assert u == w + t;
    SkipRun(w, t);
  }

  lemma ConcatEmptyFirst(f: seq<string>)
    ensures Concat([[]] + f) == Concat(f)
  {
    assert ([[]] + f)[1..] == f;
  }

  lemma SkipRun(w: string, t: string)
    requires AllWhitespace(w)
    ensures NonWhitespace(w + t) == NonWhitespace(t)
  {
    NonWhitespaceSplit(w, t);
    AllWhitespaceHasNoText(w);
  }

  lemma {:induction false} NonWhitespaceSplit(a: string, b: string)
    ensures NonWhitespace(a + b) == NonWhitespace(a) + NonWhitespace(b)
  {
    if a != [] {
      var head := if IsWhitespace(a[0]) then [] else [a[0]];
      assert (a + b)[0] == a[0];
      assert (a + b)[1..] == a[1..] + b;
      NonWhitespaceSplit(a[1..], b);
      assert NonWhitespace(a) == head + NonWhitespace(a[1..]);
      calc {
        NonWhitespace(a + b);
        head + NonWhitespace(a[1..] + b);
        head + (NonWhitespace(a[1..]) + NonWhitespace(b));
        (head + NonWhitespace(a[1..])) + NonWhitespace(b);
      }
    } else {
      assert a + b == b;
    }
  }

  /** A name without white space is used as it is. */
  lemma {:induction false} SanitizeKeepsClean(s: string)
    requires NoWhitespace(s)
    ensures Sanitize(s) == s
  {
    if s != [] {
      SanitizeKeepsClean(s[1..]);
    }
  }

  /** A maximal run of white space after a clean stretch becomes exactly one `_`. With `SanitizeKeepsClean`
      this fixes the replacement on every name, independently of how `Sanitize` is computed. */
  lemma SanitizeRun(u: string, w: string, v: string)
    requires NoWhitespace(u) && w != [] && AllWhitespace(w)
    requires v == [] || !IsWhitespace(v[0])
    ensures Sanitize(u + w + v) == u + "_" + Sanitize(v)
  {
    assert u + w + v == u + (w + v);
    SanitizeCleanPrefix(u, w + v);
    SanitizeRunFirst(w, v);
  }

  /** A clean prefix is copied as it is. */
  lemma {:induction false} SanitizeCleanPrefix(u: string, s: string)
    requires NoWhitespace(u)
    ensures Sanitize(u + s) == u + Sanitize(s)
  {
    if u == [] {
      assert u + s == s;
    } else {
      var t := u[1..] + s;
      assert u + s == [u[0]] + t;
      SanitizeCleanFirst(u[0], t);
      SanitizeCleanPrefix(u[1..], s);
      assert [u[0]] + (u[1..] + Sanitize(s)) == u + Sanitize(s);
    }
  }

  lemma SanitizeRunFirst(w: string, v: string)
    requires w != [] && AllWhitespace(w)
    requires v == [] || !IsWhitespace(v[0])
    ensures Sanitize(w + v) == "_" + Sanitize(v)
  {
    assert (w + v)[0] == w[0];
    assert (w + v)[1..] == w[1..] + v;
    TrimStartRun(w[1..], v);
  }

  lemma SanitizeCleanFirst(c: char, t: string)
    requires !IsWhitespace(c)
    ensures Sanitize([c] + t) == [c] + Sanitize(t)
  {
    assert ([c] + t)[1..] == t;
  }

  /** Leading white space is dropped up to the first other character. */
  lemma {:induction false} TrimStartRun(w: string, v: string)
    requires AllWhitespace(w)
    requires v == [] || !IsWhitespace(v[0])
    ensures TrimStart(w + v) == v
  {
    if w == [] {
      assert w + v == v;
    } else {
      assert (w + v)[1..] == w[1..] + v;
      TrimStartRun(w[1..], v);
    }
  }

  /** Sanitizing a sanitized name changes nothing. */
  lemma SanitizeIdempotent(s: string)
    ensures Sanitize(Sanitize(s)) == Sanitize(s)
  {
    SanitizeKeepsClean(Sanitize(s));
  }

  /** `${projectId}/${Date.now()}_${sanitized name}.wav`, the key of the stored sample. */
  function SampleFileName(projectId: string, now: nat, name: string): (r: string)
    ensures |r| > |projectId| + 5 && r[..|projectId| + 1] == projectId + "/" && r[|r| - 4..] == ".wav"
    ensures NoWhitespace(r[|projectId| + 1..])
  {
    var stamp := NatToString(now);
    var base := stamp + "_" + Sanitize(name);
    var r := projectId + "/" + (base + ".wav");
    assert NoWhitespace(base + ".wav") by {
      DigitsHaveNoWhitespace(stamp);
      NoWhitespaceAppend(stamp, "_");
      NoWhitespaceAppend(stamp + "_", Sanitize(name));
      NoWhitespaceAppend(base, ".wav");
    }
    SplitAt(r, projectId + "/", base + ".wav");
    SplitAt(r, projectId + "/" + base, ".wav");
    r
  }

  /** Within one project, the key determines the timestamp and the sanitized name: two uploads collide exactly
      when they happen in the same millisecond under names that sanitise to the same text (for example `a b`,
      `a\tb` and `a_b`). */
  lemma SampleFileNameInjective(projectId: string, t1: nat, n1: string, t2: nat, n2: string)
    ensures SampleFileName(projectId, t1, n1) == SampleFileName(projectId, t2, n2)
      <==> t1 == t2 && Sanitize(n1) == Sanitize(n2)
  {
    var p := projectId + "/";
    var x1, x2 := Sanitize(n1) + ".wav", Sanitize(n2) + ".wav";
    SampleFileNameStamped(projectId, t1, n1);
    SampleFileNameStamped(projectId, t2, n2);
    if SampleFileName(projectId, t1, n1) == SampleFileName(projectId, t2, n2) {
      StampedNameInjective(p, t1, x1, t2, x2);
      SplitAt(x1, Sanitize(n1), ".wav");
      SplitAt(x2, Sanitize(n2), ".wav");
    }
  }

  /** The key as a prefix, a time stamp, an underscore and a tail. */
  lemma SampleFileNameStamped(projectId: string, now: nat, name: string)
    ensures SampleFileName(projectId, now, name) == projectId + "/" + (NatToString(now) + "_" + (Sanitize(name) + ".wav"))
  {
  }

  // ---------------------------------------------------------------------------
  // The handler
  // ---------------------------------------------------------------------------

  /**
   * One request to the handler. The outside world is given as parameters: `now`
   * is `Date.now()`, `atob` decodes base64 (or fails with its error message),
   * `uploadError` and `dbError` are what storage and the database answer, and
   * `publicUrl(bucket, path)` is the URL storage issues for an object.
   */
  method Handle(req: Request<UploadBody>, now: nat, atob: string -> Result<Bytes>,
                uploadError: Option<string>, dbError: Option<string>, publicUrl: (string, string) -> string)
    returns (resp: Response, trace: seq<Effect>)
    // A preflight request is answered with the CORS headers and touches nothing.
    ensures req.httpMethod == "OPTIONS" ==> resp == Preflight && trace == []
    // Every other request either succeeds or fails with status 400 and a JSON error message.
    ensures req.httpMethod != "OPTIONS" ==> resp == Succeeded || (resp.status == 400 && resp.payload.ErrorJson?)
    ensures req.httpMethod != "OPTIONS" && req.body.Failure? ==> resp == Failed(req.body.message) && trace == []
    ensures req.httpMethod != "OPTIONS" && req.body.Success? ==>
      var body := req.body.value;
      var binary := atob(Base64Argument(body.audioData));
      var path := SampleFileName(body.projectId, now, body.name);
      var write := StorageWrite(Bucket, path, ContentType, if binary.Success? then binary.value else []);
      var insert := RowInsert(Table, NewVoiceSample(body.projectId, body.name, publicUrl(Bucket, path), body.duration));
      // Undecodable audio: nothing is written.
      && (binary.Failure? ==> resp == Failed(binary.message) && trace == [])
      // Storage refuses the object: no row is inserted.
      && (binary.Success? && uploadError.Some? ==> resp == Failed(uploadError.value) && trace == [])
      // The database refuses the row: the stored object stays where it is.
      && (binary.Success? && uploadError.None? && dbError.Some? ==> resp == Failed(dbError.value) && trace == [write])
      // Success: exactly one write, then one insert of the name as typed and the duration as sent.
      && (binary.Success? && uploadError.None? && dbError.None? ==> resp == Succeeded && trace == [write, insert])
  {
    if req.httpMethod == "OPTIONS" {
      return Preflight, [];
    }
    if req.body.Failure? {
      return Failed(req.body.message), [];
    }
    var body := req.body.value;
    var binary := atob(Base64Argument(body.audioData));
    if binary.Failure? {
      return Failed(binary.message), [];
    }
    var fileName := SampleFileName(body.projectId, now, body.name);
    if uploadError.Some? {
      return Failed(uploadError.value), [];
    }
    trace := [StorageWrite(Bucket, fileName, ContentType, binary.value)];
    var url := publicUrl(Bucket, fileName);
    if dbError.Some? {
      return Failed(dbError.value), trace;
    }
    trace := trace + [RowInsert(Table, NewVoiceSample(body.projectId, body.name, url, body.duration))];
    resp := Succeeded;
  }
}
