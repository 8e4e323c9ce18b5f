/** The page component (`App`): its state, the generate handler with its
    demo mode and its automatic fallback to the mock generator, and the two
    toggles whose values are kept in the browser's local storage. The call
    to the server and the browser's storage are inputs; the 1.5 second
    timer is taken to fire. */
module App {
  import opened JsText
  import opened Pattern
  import opened BusinessForm
  import MockGenerator

  const DefaultError := "Unable to " + "generate " + "website. " + "Please try " + "again."
  const FallbackNotice :=
    "\U{26A0}\U{FE0F} OpenAI API unavailable (connection/credits issue). Showing demo preview instead."

  /** The words that mark an error message as an API problem. */
  const ApiKeywords: seq<string> := ["quota", "billing", "insufficient", "credit", "connection", "timeout", "network"]
  /** The response statuses that mark an error as an API problem. */
  const ApiStatuses: set<int> := {429, 403, 500, 502, 503}

  /** What the handler's `catch` can read off the error: `response.data.error`
      and `response.status` when the error carries a response, and its
      `message`. */
  datatype CaughtError = CaughtError(responseError: Option<string>, message: string, status: Option<int>)

  /** How the awaited `generateWebsite(formData)` ended. */
  datatype RemoteOutcome = Responded(code: string) | Threw(err: CaughtError)

  /** `err.response?.data?.error || err.message || "Unable to ..."`: the
      first non-empty of the three, so never empty. */
  function ErrorMessage(err: CaughtError): (m: string)
    ensures m != []
    ensures err.responseError.Some? && err.responseError.value != [] ==> m == err.responseError.value
    ensures (err.responseError.None? || err.responseError.value == []) && err.message != [] ==> m == err.message
    ensures (err.responseError.None? || err.responseError.value == []) && err.message == [] ==> m == DefaultError
  {
    if err.responseError.Some? && err.responseError.value != [] then err.responseError.value
    else if err.message != [] then err.message
    else DefaultError
  }

  /** `isAPIIssue`: the lower-cased message mentions one of seven words, or
      the response status is one of five. */
  predicate IsApiIssue(err: CaughtError): (issue: bool)
    ensures err.status.Some? && err.status.value in ApiStatuses ==> issue
  {
    var lower := ToLower(ErrorMessage(err));
    Contains(lower, "quota") || Contains(lower, "billing") || Contains(lower, "insufficient") ||
    Contains(lower, "credit") || Contains(lower, "connection") || Contains(lower, "timeout") ||
    Contains(lower, "network") ||
    err.status == Some(429) || err.status == Some(403) || err.status == Some(500) ||
    err.status == Some(502) || err.status == Some(503)
  }

  /** The chain of tests is the keyword list and the status set. */
  lemma IsApiIssueIff(err: CaughtError)
    ensures IsApiIssue(err) <==>
      (exists k :: 0 <= k < |ApiKeywords| && Contains(ToLower(ErrorMessage(err)), ApiKeywords[k])) ||
      (err.status.Some? && err.status.value in ApiStatuses)
  {
    var lower := ToLower(ErrorMessage(err));
    if exists k :: 0 <= k < |ApiKeywords| && Contains(lower, ApiKeywords[k]) {
      var k :| 0 <= k < |ApiKeywords| && Contains(lower, ApiKeywords[k]);
      assert ApiKeywords[k] in ApiKeywords;
    }
    if Contains(lower, "quota") { assert Contains(lower, ApiKeywords[0]); }
    if Contains(lower, "billing") { assert Contains(lower, ApiKeywords[1]); }
    if Contains(lower, "insufficient") { assert Contains(lower, ApiKeywords[2]); }
    if Contains(lower, "credit") { assert Contains(lower, ApiKeywords[3]); }
    if Contains(lower, "connection") { assert Contains(lower, ApiKeywords[4]); }
    if Contains(lower, "timeout") { assert Contains(lower, ApiKeywords[5]); }
    if Contains(lower, "network") { assert Contains(lower, ApiKeywords[6]); }
  }

  /** The keyword test ignores case: an error whose message is the
      lower-cased message of another is classified the same way. */
  lemma IsApiIssueIgnoresCase(err: CaughtError, other: CaughtError)
    requires ErrorMessage(other) == ToLower(ErrorMessage(err)) && other.status == err.status
    ensures IsApiIssue(other) == IsApiIssue(err)
  {
    ToLowerIdempotent(ErrorMessage(err));
  }

  /** `theme` as the first effect stores it. */
  function ThemeName(dark: bool): (r: string)
    ensures r == "dark" <==> dark
  {
    if dark then "dark" else "light"
  }

  /** `demoMode.toString()`. */
  function BoolString(b: bool): string
  {
    if b then "true" else "false"
  }

  /** `localStorage.getItem(key) === value`; a missing key reads as null. */
  predicate StoredAs(storage: map<string, string>, key: string, value: string)
  {
    key in storage && storage[key] == value
  }

  /** What the effects write: both settings, in the form the initial state
      reads them back. */
  function Persisted(storage: map<string, string>, dark: bool, demo: bool): map<string, string>
  {
    storage["theme" := ThemeName(dark)]["demoMode" := BoolString(demo)]
  }

  /** The page state. `storage` is the browser's local storage and
      `bodyTheme` the `data-theme` attribute of the document body, as the
      effects leave them after each render. */
  class App {
    var generatedCode: string
    var loading: bool
    var error: string
    var darkMode: bool
    var demoMode: bool
    var storage: map<string, string>
    var bodyTheme: string

    /** Storage and the body attribute agree with the two settings. */
    predicate SettingsSaved()
      reads this
    {
      StoredAs(storage, "theme", "dark") == darkMode && StoredAs(storage, "demoMode", "true") == demoMode &&
      bodyTheme == ThemeName(darkMode)
    }

    /** The initial state read from storage, after the first render's
        effects. */
    constructor (stored: map<string, string>)
      ensures generatedCode == [] && !loading && error == []
      ensures darkMode == StoredAs(stored, "theme", "dark")
      ensures demoMode == StoredAs(stored, "demoMode", "true")
      ensures storage == Persisted(stored, darkMode, demoMode) && bodyTheme == ThemeName(darkMode)
      ensures SettingsSaved()
    {
      generatedCode, loading, error := "", false, "";
      var dark, demo := StoredAs(stored, "theme", "dark"), StoredAs(stored, "demoMode", "true");
      darkMode, demoMode := dark, demo;
      storage := Persisted(stored, dark, demo);
      bodyTheme := ThemeName(dark);
    }

    /** `handleGenerate(formData)` up to the end of its timer, if it sets
        one. `calledServer` says whether the server was asked; `remote` is
        how that call ended. In demo mode the mock is shown without a call;
        otherwise the server's code is shown, or on an API problem the
        notice and the mock, or else the error message alone. The spinner
        is off at the end either way. */
    method HandleGenerate(formData: FormData, remote: RemoteOutcome) returns (calledServer: bool)
      modifies this
      ensures calledServer == !old(demoMode)
      ensures !loading
      ensures darkMode == old(darkMode) && demoMode == old(demoMode)
      ensures storage == old(storage) && bodyTheme == old(bodyTheme)
      ensures demoMode ==> generatedCode == MockGenerator.GenerateMockWebsite(formData) && error == []
      ensures !demoMode && remote.Responded? ==> generatedCode == remote.code && error == []
      ensures !demoMode && remote.Threw? && IsApiIssue(remote.err) ==>
        generatedCode == MockGenerator.GenerateMockWebsite(formData) && error == FallbackNotice
      ensures !demoMode && remote.Threw? && !IsApiIssue(remote.err) ==>
        generatedCode == [] && error == ErrorMessage(remote.err)
    {
      // The mock is a pure function of the form data, so computing it here
      // rather than inside the timer's callbacks changes nothing.
      var mockCode := MockGenerator.GenerateMockWebsite(formData);
      calledServer := HandleGenerateWith(mockCode, remote);
    }

    /** The body of the handler, given the code the mock generator gives for
        the form. */
    method HandleGenerateWith(mockCode: string, remote: RemoteOutcome) returns (calledServer: bool)
      modifies this
      ensures calledServer == !old(demoMode)
      ensures !loading
      ensures darkMode == old(darkMode) && demoMode == old(demoMode)
      ensures storage == old(storage) && bodyTheme == old(bodyTheme)
      ensures demoMode ==> generatedCode == mockCode && error == []
      ensures !demoMode && remote.Responded? ==> generatedCode == remote.code && error == []
      ensures !demoMode && remote.Threw? && IsApiIssue(remote.err) ==>
        generatedCode == mockCode && error == FallbackNotice
      ensures !demoMode && remote.Threw? && !IsApiIssue(remote.err) ==>
        generatedCode == [] && error == ErrorMessage(remote.err)
    {
      loading := true;
      error := "";
      generatedCode := "";
      if demoMode {
        // The timer's callback.
        generatedCode := mockCode;
        loading := false;
        return false;
      }
      calledServer := true;
      match remote
      case Responded(code) =>
        generatedCode := code;
        loading := false;
      case Threw(err) =>
        var errorMessage := ErrorMessage(err);
        var apiIssue := IsApiIssue(err);
        if apiIssue {
          error := FallbackNotice;
          // The timer's callback.
          generatedCode := mockCode;
          loading := false;
        } else {
          error := errorMessage;
          loading := false;
        }
    }

    /** The theme button, followed by the effect that applies and stores
        the theme. */
    method ToggleDarkMode()
      modifies this
      ensures darkMode == !old(darkMode)
      ensures storage == old(storage)["theme" := ThemeName(darkMode)] && bodyTheme == ThemeName(darkMode)
      ensures generatedCode == old(generatedCode) && loading == old(loading) && error == old(error)
      ensures demoMode == old(demoMode)
      ensures old(SettingsSaved()) ==> SettingsSaved()
    {
      darkMode := !darkMode;
      bodyTheme := ThemeName(darkMode);
      storage := storage["theme" := ThemeName(darkMode)];
    }

    /** The mode button, followed by the effect that stores the mode. */
    method ToggleDemoMode()
      modifies this
      ensures demoMode == !old(demoMode)
      ensures storage == old(storage)["demoMode" := BoolString(demoMode)]
      ensures generatedCode == old(generatedCode) && loading == old(loading) && error == old(error)
      ensures darkMode == old(darkMode) && bodyTheme == old(bodyTheme)
      ensures old(SettingsSaved()) ==> SettingsSaved()
    {
      demoMode := !demoMode;
      storage := storage["demoMode" := BoolString(demoMode)];
    }
  }
}
