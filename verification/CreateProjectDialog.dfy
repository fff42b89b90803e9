/**
 * The `CreateProjectDialog` component: a form with a project name and an
 * optional description that inserts a `voice_projects` row for the signed-in
 * user.
 */
module CreateProjectDialog {
  import opened Wrappers
  import opened Text
  import opened Schema

  const Table := "voice_projects"
  const Created := Notice("Project created", "Your voice cloning project has been created successfully.", false)
  const CreateFailed := Notice("Error", "Failed to create project. Please try again.", true)

  /** What the component does that can be seen from outside it. */
  datatype Event =
    | AuthLookup              // `supabase.auth.getUser()`
    | Insert(record: NewRow)  // the insert request sent to `voice_projects`
    | Toast(notice: Notice)
    | ProjectCreated          // the `onProjectCreated` callback

  /** `description.trim() || null`: the trimmed description, or no description when nothing but white space
      was typed. */
  function NormalizeDescription(description: string): Option<string> {
    var t := Trim(description);
    if t == [] then None else Some(t)
  }

  /** The record `handleSubmit` inserts for `userId`. */
  function NewProjectRecord(name: string, description: string, userId: string): (r: NewRow)
    ensures r.NewProject? && r.userId == userId
  {
    NewProject(Trim(name), NormalizeDescription(description), userId)
  }

  /** An empty description is never stored: a description is either absent, exactly when only white space was
      typed, or the typed text without its surrounding white space, which then has none left to trim. */
  lemma NormalizeDescriptionSpec(description: string)
    ensures var r := NormalizeDescription(description);
      && (r.None? <==> AllWhitespace(description))
      && (r.Some? ==> r.value != [] && r.value == Trim(description) && Trim(r.value) == r.value)
  {
    TrimEmptyIff(description);
    TrimIdempotent(description);
  }

  /** A record built from a name that passed the guard has a non-empty name that is the typed name without
      its surrounding white space (so trimming it again changes nothing), and a normalised description. */
  lemma NewProjectRecordFields(name: string, description: string, userId: string)
    requires !AllWhitespace(name)
    ensures var r := NewProjectRecord(name, description, userId);
      && r.name != [] && r.name == Trim(name) && Trim(r.name) == r.name
      && r.description == NormalizeDescription(description) && r.description != Some([])
  {
    TrimEmptyIff(name);
    TrimIdempotent(name);
    NormalizeDescriptionSpec(description);
  }

  /**
   * Everything one submission shows to the outside, given the signed-in user's
   * id (`None` when there is none or the lookup failed) and the error the
   * database answers to the insert.
   */
  function SubmitEvents(name: string, description: string, user: Option<string>, insertError: Option<string>)
    : (r: seq<Event>)
    // A blank name: nothing at all happens.
    ensures AllWhitespace(name) ==> r == []
    // Otherwise the user is looked up first.
    ensures !AllWhitespace(name) ==> |r| >= 2 && r[0] == AuthLookup
    // Only with a user is anything inserted: the normalised record, once, right after the lookup.
    ensures forall i :: 0 <= i < |r| && r[i].Insert? ==> i == 1 && user.Some?
    ensures !AllWhitespace(name) && user.Some? ==> r[1] == Insert(NewProjectRecord(name, description, user.value))
    // The caller hears of a new project exactly when the insert succeeded.
    ensures ProjectCreated in r <==> !AllWhitespace(name) && user.Some? && insertError.None?
    // Every failure after the guard ends with the error toast.
    ensures !AllWhitespace(name) && !(user.Some? && insertError.None?) ==> r[|r| - 1] == Toast(CreateFailed)
  {
    if AllWhitespace(name) then []
    else if user.None? then [AuthLookup, Toast(CreateFailed)]
    else
      var insert := Insert(NewProjectRecord(name, description, user.value));
      if insertError.Some? then [AuthLookup, insert, Toast(CreateFailed)]
      else [AuthLookup, insert, Toast(Created), ProjectCreated]
  }

  /** `disabled={isLoading || !name.trim()}` on the submit button, negated. */
  predicate SubmitButtonEnabled(isLoading: bool, name: string) {
    !isLoading && Trim(name) != []
  }

  /** The submit button is enabled exactly when nothing is in flight and the name is not all white space, and
      an enabled button always gets past the guard of `handleSubmit`. */
  lemma SubmitButtonRule(isLoading: bool, name: string, description: string, user: Option<string>,
                         insertError: Option<string>)
    ensures SubmitButtonEnabled(isLoading, name) <==> !isLoading && !AllWhitespace(name)
    ensures SubmitButtonEnabled(isLoading, name) ==> SubmitEvents(name, description, user, insertError) != []
  {
    TrimEmptyIff(name);
  }

  /** The state of one dialog. */
  class Dialog {
    var name: string
    var description: string
    var isLoading: bool
    var log: seq<Event>

    constructor ()
      ensures name == "" && description == "" && !isLoading && log == []
    {
      name := "";
      description := "";
      isLoading := false;
      log := [];
    }

    /** Talks to the backend; only ever done while the loading flag is set. */
    method Dispatch(e: Event)
      requires isLoading
      modifies this`log
      ensures log == old(log) + [e]
    {
      log := log + [e];
    }

    /** `handleSubmit`, with the user lookup and the insert's outcome as inputs. */
    method HandleSubmit(user: Option<string>, insertError: Option<string>)
      modifies this
      ensures log == old(log) + SubmitEvents(old(name), old(description), user, insertError)
      // The guard leaves the state alone; after it the flag is always cleared.
      ensures isLoading == if AllWhitespace(old(name)) then old(isLoading) else false
      // Only a successful insert clears the form.
      ensures !AllWhitespace(old(name)) && user.Some? && insertError.None? ==> name == "" && description == ""
      ensures !(!AllWhitespace(old(name)) && user.Some? && insertError.None?) ==>
        name == old(name) && description == old(description)
    {
      ghost var events := SubmitEvents(name, description, user, insertError);
      if AllWhitespace(name) {
        return;
      }
      ghost var before := log;
      isLoading := true;
      Dispatch(AuthLookup);
      if user.None? {
        log := log + [Toast(CreateFailed)];
        assert events == [AuthLookup, Toast(CreateFailed)];
        assert log == before + events;
      } else {
        var record := NewProjectRecord(name, description, user.value);
        Dispatch(Insert(record));
        if insertError.Some? {
          log := log + [Toast(CreateFailed)];
          assert events == [AuthLookup, Insert(record), Toast(CreateFailed)];
          assert log == before + events;
        } else {
          log := log + [Toast(Created)];
          name, description := "", "";
          log := log + [ProjectCreated];
          assert events == [AuthLookup, Insert(record), Toast(Created), ProjectCreated];
          assert log == before + events;
        }
      }
      isLoading := false;
    }
  }
}
