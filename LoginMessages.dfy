// The login page's error messages: the descriptor table and the mapping
// from a user-context error code to the descriptor shown.

module LoginMessages {

  /** A react-intl message descriptor. */
  datatype MessageDescriptor = MessageDescriptor(id: string, defaultMessage: string, description: string)

  const LoginError: MessageDescriptor :=
    MessageDescriptor("FopBSj", "Your username and/or password are incorrect. Please try again.", "error message")
  const UnknownLoginError: MessageDescriptor :=
    MessageDescriptor("Wr5UOV", "Login went wrong. Please try again.", "error message")
  const ServerError: MessageDescriptor :=
    MessageDescriptor("ChGI4V", "Ad is unavailable, please check your network connection and try again.", "error message")
  const NoPermissionsError: MessageDescriptor :=
    MessageDescriptor("7Jg9ec", "You don't have permission to login.", "error message")
  const LoginAttemptDelay: MessageDescriptor :=
    MessageDescriptor("RyZd9J", "Please wait a moment before trying again.", "error message")

  /** The five descriptors of `errorMessages`. */
  const ErrorMessages: seq<MessageDescriptor> := [LoginError, UnknownLoginError, ServerError, NoPermissionsError, LoginAttemptDelay]

  /** The codes the switch lists by name. */
  predicate ListedCode(err: string) {
    err == "loginError" || err == "externalLoginError" || err == "unknownLoginError" || err == "serverError"
    || err == "noPermissionsError" || err == "loginAttemptDelay" || err == "invalidCredentials"
  }

  /** The descriptor `getErrorMessage` formats for an error code; any other code gets the unknown-error one. */
  function GetErrorMessage(err: string): (r: MessageDescriptor)
    ensures r in ErrorMessages
    ensures !ListedCode(err) ==> r == UnknownLoginError
  {
    match err
    case "loginError" => LoginError
    case "externalLoginError" => UnknownLoginError
    case "unknownLoginError" => UnknownLoginError
    case "serverError" => ServerError
    case "noPermissionsError" => NoPermissionsError
    case "loginAttemptDelay" => LoginAttemptDelay
    case "invalidCredentials" => LoginError
    case _ => UnknownLoginError
  }

  /** Wrong credentials under either code read as the login error. */
  lemma CredentialCodes()
    ensures GetErrorMessage("loginError") == LoginError
    ensures GetErrorMessage("invalidCredentials") == LoginError
  {
  }

  /** External and unknown failures read as the unknown-error message, as does any unlisted code. */
  lemma UnknownCodes(other: string)
    requires !ListedCode(other)
    ensures GetErrorMessage("externalLoginError") == UnknownLoginError
    ensures GetErrorMessage("unknownLoginError") == UnknownLoginError
    ensures GetErrorMessage(other) == UnknownLoginError
  {
  }

  /** The server, permission and delay codes each read as the message of the same name. */
  lemma SameNameCodes()
    ensures GetErrorMessage("serverError") == ServerError
    ensures GetErrorMessage("noPermissionsError") == NoPermissionsError
    ensures GetErrorMessage("loginAttemptDelay") == LoginAttemptDelay
  {
  }

  /** The five descriptors are told apart by their ids. */
  lemma DistinctIds()
    ensures forall i, j :: 0 <= i < j < |ErrorMessages| ==> ErrorMessages[i].id != ErrorMessages[j].id
  {
    assert ErrorMessages[0].id[0] == 'F' && ErrorMessages[1].id[0] == 'W' && ErrorMessages[2].id[0] == 'C';
    assert ErrorMessages[3].id[0] == '7' && ErrorMessages[4].id[0] == 'R';
  }

  /** A listed code for each descriptor, in table order. */
  const Codes: seq<string> := ["loginError", "unknownLoginError", "serverError", "noPermissionsError", "loginAttemptDelay"]

  /** Every descriptor is reached by a listed code: the one at its own position in `Codes`. */
  lemma EveryMessageUsed(k: nat)
    requires k < |ErrorMessages|
    ensures k < |Codes| && ListedCode(Codes[k]) && GetErrorMessage(Codes[k]) == ErrorMessages[k]
  {
    CredentialCodes();
    SameNameCodes();
    assert GetErrorMessage("unknownLoginError") == UnknownLoginError;
    if k == 0 {
      assert Codes[k] == "loginError";
    } else if k == 1 {
      assert Codes[k] == "unknownLoginError";
    } else if k == 2 {
      assert Codes[k] == "serverError";
    } else if k == 3 {
      assert Codes[k] == "noPermissionsError";
    } else {
      assert Codes[k] == "loginAttemptDelay";
    }
  }
}
