/**
 * The key form of components/ApiKeySetup.tsx. `handleVerify` awaits
 * `verifyApiKey`, an input of the model; the part before the await is
 * `BeginVerify`, the part after it `SettleVerify`.
 */
module ApiKeySetupComponent {
  import opened Wrappers
  import opened Text

  const EmptyKeyError := "Please enter an API key."
  const InvalidKeyError := "The API key is invalid or failed to verify. Please check the key and your connection."

  class ApiKeySetup {
    var apiKey: string
    var isLoading: bool
    var error: string

    constructor()
      ensures apiKey == "" && !isLoading && error == ""
    {
      apiKey, isLoading, error := "", false, "";
    }

    /** The `disabled` prop of both the input and the button. */
    predicate InputsDisabled()
      reads this
    {
      isLoading
    }

    /** Up to the await: refuse a blank key, otherwise start loading. */
    method BeginVerify() returns (proceed: bool)
      modifies this`isLoading, this`error
      ensures proceed <==> !AllWhitespace(apiKey)
      ensures !proceed ==> error == EmptyKeyError && isLoading == old(isLoading)
      ensures proceed ==> InputsDisabled() && error == ""
    {
      TrimEmptyIff(apiKey);
      if Trim(apiKey) == "" {
        error := EmptyKeyError;
        return false;
      }
      isLoading := true;
      error := "";
      proceed := true;
    }

    /** After the await: loading over; `onApiKeyVerified` gets the key as typed iff it is valid. */
    method SettleVerify(isValid: bool) returns (verified: Option<string>)
      modifies this`isLoading, this`error
      ensures !InputsDisabled()
      ensures isValid ==> verified == Some(apiKey) && error == old(error)
      ensures !isValid ==> verified == None && error == InvalidKeyError
    {
      isLoading := false;
      if isValid {
        verified := Some(apiKey);
      } else {
        error := InvalidKeyError;
        verified := None;
      }
    }

    /** `handleVerify`; `verified` holds the argument of the `onApiKeyVerified` call, if any. */
    method HandleVerify(verifyApiKey: string -> bool) returns (verified: Option<string>)
      modifies this`isLoading, this`error
      ensures AllWhitespace(apiKey) ==> verified == None && error == EmptyKeyError && isLoading == old(isLoading)
      ensures !AllWhitespace(apiKey) ==> !isLoading
      ensures !AllWhitespace(apiKey) && verifyApiKey(apiKey) ==> verified == Some(apiKey) && error == ""
      ensures !AllWhitespace(apiKey) && !verifyApiKey(apiKey) ==> verified == None && error == InvalidKeyError
    {
      var proceed := BeginVerify();
      if !proceed {
        return None;
      }
      var isValid := verifyApiKey(apiKey);
      verified := SettleVerify(isValid);
    }

    /** `handleKeyDown`: Enter runs `handleVerify`; any other key does nothing. */
    method HandleKeyDown(key: string, verifyApiKey: string -> bool) returns (verified: Option<string>)
      modifies this`isLoading, this`error
      ensures key != "Enter" ==> verified == None && isLoading == old(isLoading) && error == old(error)
      ensures key == "Enter" && AllWhitespace(apiKey) ==> verified == None && error == EmptyKeyError && isLoading == old(isLoading)
      ensures key == "Enter" && !AllWhitespace(apiKey) ==> !isLoading
      ensures key == "Enter" && !AllWhitespace(apiKey) && verifyApiKey(apiKey) ==> verified == Some(apiKey) && error == ""
      ensures key == "Enter" && !AllWhitespace(apiKey) && !verifyApiKey(apiKey) ==> verified == None && error == InvalidKeyError
    {
      verified := None;
      if key == "Enter" {
        verified := HandleVerify(verifyApiKey);
      }
    }
  }
}
