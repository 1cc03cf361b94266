/** The login form: local validation of the API key, then a remote check of
    the key; only a key that passes both is handed to the application. */
module Login {
  import opened Js

  const RequiredError := "API Key is required"
  const TooShortError := "API Key must be at least 10 characters"
  const InvalidKeyError := "Invalid API key or unable to connect to server"
  const MinKeyLength: nat := 10

  /** How the remote key check ended: an HTTP response with its status, or a
      thrown exception (network failure). */
  datatype CheckOutcome = Responded(status: nat) | Threw

  /** `validateApiKey`: the response's `ok` flag (a 2xx status), or false when
      the request throws. */
  function ValidateApiKey(outcome: CheckOutcome): (valid: bool)
    ensures valid ==> outcome.Responded?
    ensures outcome.Responded? ==> (valid <==> 200 <= outcome.status <= 299)
  {
    match outcome
    case Responded(status) => 200 <= status <= 299
    case Threw => false
  }

  /** The error `validateForm` records for the key, if any: a blank key is
      required, a non-blank key shorter than ten UTF-16 units (counted before
      trimming) is too short, and every other key passes. */
  function KeyError(apiKey: string): (e: Option<string>)
    ensures e == Some(RequiredError) <==> forall i :: 0 <= i < |apiKey| ==> IsWhitespace(apiKey[i])
    ensures e == Some(TooShortError) <==>
              (exists i :: 0 <= i < |apiKey| && !IsWhitespace(apiKey[i])) && Utf16Length(apiKey) < MinKeyLength
    ensures e == None <==>
              (exists i :: 0 <= i < |apiKey| && !IsWhitespace(apiKey[i])) && Utf16Length(apiKey) >= MinKeyLength
  {
    TrimEmptyIffBlank(apiKey);
    if Trim(apiKey) == "" then Some(RequiredError)
    else if Utf16Length(apiKey) < MinKeyLength then Some(TooShortError)
    else None
  }

  /** The length rule looks at the untrimmed key: one letter padded with nine
      spaces passes, the same letter alone does not. */
  lemma PaddingCountsTowardsLength()
    ensures KeyError("a         ") == None
    ensures KeyError("a") == Some(TooShortError)
    ensures KeyError("          ") == Some(RequiredError)
  {
    assert !IsWhitespace("a         "[0]);
    assert !IsWhitespace("a"[0]);
  }

  /** The form's state. `checkingKey` is the key whose remote check is in
      flight: the submit handler captured it, and it is the key handed on. */
  class LoginPage {
    var apiKey: string
    var isLoading: bool
    var apiKeyError: Option<string>
    var checkingKey: string

    constructor ()
      ensures apiKey == "" && !isLoading && apiKeyError == None
    {
      apiKey := "";
      isLoading := false;
      apiKeyError := None;
      checkingKey := "";
    }

    /** Typing in the key field stores the new key and clears a shown error. */
    method EditKey(value: string)
      modifies this
      ensures apiKey == value && apiKeyError == None
      ensures isLoading == old(isLoading) && checkingKey == old(checkingKey)
    {
      apiKey := value;
      if apiKeyError.Some? {
        apiKeyError := None;
      }
    }

    /** `validateForm`: stores exactly the error the key deserves and reports
        whether there was none. */
    method ValidateForm() returns (valid: bool)
      modifies this
      ensures apiKeyError == KeyError(apiKey) && valid == KeyError(apiKey).None?
      ensures apiKey == old(apiKey) && isLoading == old(isLoading) && checkingKey == old(checkingKey)
    {
      apiKeyError := KeyError(apiKey);
      valid := apiKeyError.None?;
    }

    /** The submit handler up to its `await`: an invalid form stops here with
        its error shown and no remote check; a valid one clears the errors,
        shows the loading state and starts the check of the current key. The
        submit button is disabled while loading, so a submit never starts
        during a check. */
    method Submit() returns (checkStarted: bool)
      requires !isLoading
      modifies this
      ensures apiKey == old(apiKey)
      ensures checkStarted == KeyError(apiKey).None?
      ensures !checkStarted ==> apiKeyError == KeyError(apiKey) && !isLoading && checkingKey == old(checkingKey)
      ensures checkStarted ==> apiKeyError == None && isLoading && checkingKey == apiKey
    {
      var valid := ValidateForm();
      if !valid {
        return false;
      }
      isLoading := true;
      apiKeyError := None;
      checkingKey := apiKey;
      checkStarted := true;
    }

    /** The submit handler after its `await`: a passed check hands the
        submitted key to `onLogin` (the returned value), a failed one shows the
        connection error; either way the loading state ends. */
    method CheckResolved(outcome: CheckOutcome) returns (login: Option<string>)
      requires isLoading
      modifies this
      ensures login == (if ValidateApiKey(outcome) then Some(old(checkingKey)) else None)
      ensures apiKeyError == (if ValidateApiKey(outcome) then old(apiKeyError) else Some(InvalidKeyError))
      ensures !isLoading
      ensures apiKey == old(apiKey) && checkingKey == old(checkingKey)
    {
      var valid := ValidateApiKey(outcome);
      if valid {
        login := Some(checkingKey);
      } else {
        login := None;
        apiKeyError := Some(InvalidKeyError);
      }
      isLoading := false;
    }
  }

  /** A whole login attempt on a fresh form: type `key`, submit, and let the
      remote check end with `outcome`. Reports whether a remote check was
      made, what `onLogin` received, the error shown and the loading flag. */
  method LoginScenario(key: string, outcome: CheckOutcome)
    returns (checked: bool, login: Option<string>, error: Option<string>, loading: bool)
    ensures checked <==> KeyError(key).None?
    ensures !checked ==> login == None && error == KeyError(key)
    ensures checked ==> login == (if ValidateApiKey(outcome) then Some(key) else None)
    ensures checked ==> error == (if ValidateApiKey(outcome) then None else Some(InvalidKeyError))
    ensures !loading
  {
    var page := new LoginPage();
    page.EditKey(key);
    checked := page.Submit();
    login := None;
    if checked {
      login := page.CheckResolved(outcome);
    }
    error, loading := page.apiKeyError, page.isLoading;
  }
}
