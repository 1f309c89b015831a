/** The `ApiKeyInput` form: the key typed so far, and a submit that passes
    the trimmed key on and stores it, unless it is blank. */
module ApiKeyInput {
  import opened Results
  import opened Text

  /** The storage key the API key is saved under. */
  const StorageKey := "gemini_api_key"

  /** What `handleSubmit` passes to `onSubmit`, if anything: the trimmed key,
      provided trimming leaves something. */
  function SubmittedKey(apiKey: string): (sent: Option<string>)
    ensures sent.Some? <==> !IsBlank(apiKey)
    ensures sent.Some? ==> sent.value != [] && Trimmed(sent.value)
    ensures sent.Some? ==> sent.value == Trim(apiKey)
  {
    BlankIffTrimEmpty(apiKey);
    var key := Trim(apiKey);
    if key != [] then Some(key) else None
  }

  /** Submitting a key already sent changes nothing: it is sent again as it is. */
  lemma ResubmitIsStable(apiKey: string)
    requires SubmittedKey(apiKey).Some?
    ensures SubmittedKey(SubmittedKey(apiKey).value) == SubmittedKey(apiKey)
  {
    TrimIdempotent(apiKey);
  }

  /** The form's state and the browser storage it writes to. */
  class ApiKeyForm {
    var apiKey: string
    var storage: map<string, string>

    constructor(storage: map<string, string>)
      ensures apiKey == "" && this.storage == storage
    {
      apiKey := "";
      this.storage := storage;
    }

    /** The input's `onChange`. */
    method OnInput(text: string)
      modifies this
      ensures apiKey == text && storage == old(storage)
    {
      apiKey := text;
    }

    /** `handleSubmit`: returns what `onSubmit` receives. A blank key is
        ignored and nothing is stored; otherwise the trimmed key is both
        passed on and stored under `StorageKey`. */
    method HandleSubmit() returns (sent: Option<string>)
      modifies this
      ensures sent == SubmittedKey(old(apiKey))
      ensures apiKey == old(apiKey)
      ensures sent.None? ==> storage == old(storage)
      ensures sent.Some? ==> storage == old(storage)[StorageKey := sent.value]
    {
      var key := Trim(apiKey);
      if key != [] {
        sent := Some(key);
        storage := storage[StorageKey := key];
      } else {
        sent := None;
      }
    }
  }
}
