/** The `Index` page: the start form's fields, the gate that starts the
    interview, and which of the three views is shown. */
module IndexPage {
  import opened Results
  import ApiKeyInput
  import InterviewSession

  /** An uploaded file; the page only tells a chosen file from none. */
  datatype File = File(name: string)

  datatype IndexState = IndexState(resume: Option<File>, interviewerResume: Option<File>, role: string,
                                   round: string, isInterviewStarted: bool, apiKey: string)

  const MissingInformationToast :=
    InterviewSession.Toast("Missing Information", "Please fill in all fields before starting the interview.")
  const ApiKeyRequiredToast :=
    InterviewSession.Toast("API Key Required", "Please enter your Gemini API key before starting the interview.")

  /** The page on first render: the stored key, or `""` when there is none.
      Nothing is chosen yet, and the key form shows exactly when no non-empty
      key was stored. */
  function InitialState(storedKey: Option<string>): (s: IndexState)
    ensures s.resume.None? && s.interviewerResume.None? && s.role == "" && s.round == "" && !s.isInterviewStarted
    ensures CurrentView(s) == ApiKeyForm <==> storedKey.None? || storedKey.value == ""
    ensures CurrentView(s) != Session
  {
    IndexState(None, None, "", "", false, storedKey.GetOr(""))
  }

  /** `handleApiKeySubmit`. */
  function ApiKeySubmitted(s: IndexState, newApiKey: string): (r: IndexState)
    ensures r.apiKey == newApiKey
    ensures r.(apiKey := s.apiKey) == s
  {
    s.(apiKey := newApiKey)
  }

  predicate FieldsFilled(s: IndexState) {
    s.resume.Some? && s.interviewerResume.Some? && s.role != "" && s.round != ""
  }

  /** `handleStartInterview`: the new state and the toast shown, if any. The
      interview starts exactly when all five inputs are present; the missing
      fields are reported first, then the missing key, and a refused start
      changes nothing. */
  function StartInterview(s: IndexState): (result: (IndexState, Option<InterviewSession.Toast>))
    ensures var (r, toast) := result;
      (r.isInterviewStarted <==> s.isInterviewStarted || (FieldsFilled(s) && s.apiKey != ""))
      && (!FieldsFilled(s) ==> r == s && toast == Some(MissingInformationToast))
      && (FieldsFilled(s) && s.apiKey == "" ==> r == s && toast == Some(ApiKeyRequiredToast))
      && (FieldsFilled(s) && s.apiKey != "" ==> r == s.(isInterviewStarted := true) && toast == None)
  {
    if !FieldsFilled(s) then (s, Some(MissingInformationToast))
    else if s.apiKey == "" then (s, Some(ApiKeyRequiredToast))
    else (s.(isInterviewStarted := true), None)
  }

  datatype View = ApiKeyForm | Session | StartForm

  /** The key form comes first, then a started interview, then the start form. */
  function CurrentView(s: IndexState): (v: View)
    ensures v == ApiKeyForm <==> s.apiKey == ""
    ensures v == Session <==> s.apiKey != "" && s.isInterviewStarted
    ensures v == StartForm <==> s.apiKey != "" && !s.isInterviewStarted
  {
    if s.apiKey == "" then ApiKeyForm
    else if s.isInterviewStarted then Session
    else StartForm
  }

  /** A successful start always shows the session. */
  lemma StartShowsSession(s: IndexState)
    requires FieldsFilled(s) && s.apiKey != ""
    ensures CurrentView(StartInterview(s).0) == Session
  {
  }

  /** A key the key form sends, passed to `handleApiKeySubmit`, leaves the key
      form behind; so does the same key read back from storage on the next
      visit. */
  lemma SubmittedKeyLeavesKeyForm(s: IndexState, typed: string, storage: map<string, string>)
    requires ApiKeyInput.SubmittedKey(typed).Some?
    ensures CurrentView(ApiKeySubmitted(s, ApiKeyInput.SubmittedKey(typed).value)) != ApiKeyForm
    ensures var stored := storage[ApiKeyInput.StorageKey := ApiKeyInput.SubmittedKey(typed).value];
      CurrentView(InitialState(Some(stored[ApiKeyInput.StorageKey]))) == StartForm
  {
  }

  /** The page and its `useState` fields. */
  class Index {
    var resume: Option<File>
    var interviewerResume: Option<File>
    var role: string
    var round: string
    var isInterviewStarted: bool
    var apiKey: string

    function State(): IndexState
      reads this
    {
      IndexState(resume, interviewerResume, role, round, isInterviewStarted, apiKey)
    }

    /** `storedKey` is what the storage holds under the key's name, if anything. */
    constructor(storedKey: Option<string>)
      ensures State() == InitialState(storedKey)
    {
      resume := None;
      interviewerResume := None;
      role := "";
      round := "";
      isInterviewStarted := false;
      apiKey := storedKey.GetOr("");
    }

    method SetResume(file: Option<File>)
      modifies this
      ensures State() == old(State()).(resume := file)
    {
      resume := file;
    }

    method SetInterviewerResume(file: Option<File>)
      modifies this
      ensures State() == old(State()).(interviewerResume := file)
    {
      interviewerResume := file;
    }

    method SetRole(text: string)
      modifies this
      ensures State() == old(State()).(role := text)
    {
      role := text;
    }

    method SetRound(text: string)
      modifies this
      ensures State() == old(State()).(round := text)
    {
      round := text;
    }

    method HandleApiKeySubmit(newApiKey: string)
      modifies this
      ensures State() == ApiKeySubmitted(old(State()), newApiKey)
    {
      apiKey := newApiKey;
    }

    method HandleStartInterview() returns (toast: Option<InterviewSession.Toast>)
      modifies this
      ensures (State(), toast) == StartInterview(old(State()))
    {
      if resume.None? || interviewerResume.None? || role == "" || round == "" {
        toast := Some(MissingInformationToast);
        return;
      }
      if apiKey == "" {
        toast := Some(ApiKeyRequiredToast);
        return;
      }
      isInterviewStarted := true;
      toast := None;
    }
  }
}
