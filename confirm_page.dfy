/** The e-mail confirmation page of src/pages/Confirm.tsx: it reads the
 *  token from the query string and shows the outcome of `confirm`. */
module ConfirmPage {
  import opened Common
  import opened Types
  import opened Api

  datatype ConfirmStatus = Confirming | Success | Error

  const NO_TOKEN_TEXT := "No confirmation token provided"
  const FAILED_TEXT := "Failed to confirm email"

  class ConfirmView {
    var status: ConfirmStatus
    var errorMessage: Option<string>

    /** The page as it mounts. */
    constructor ()
      ensures status == Confirming && errorMessage == None
    {
      status := Confirming;
      errorMessage := None;
    }

    /** `confirmEmail`: `token` is the `token` query parameter. Returns the
        tokens sent to the backend. */
    method ConfirmEmail(token: Option<string>, confirm: string -> Outcome<ConfirmResponse>)
      returns (sent: seq<string>)
      modifies this
      ensures !Truthy(token) ==> sent == [] && status == Error && errorMessage == Some(NO_TOKEN_TEXT)
      ensures Truthy(token) ==>
                var reply := Api.Confirm(confirm(token.value));
                && sent == [token.value]
                && (reply.success ==> status == Success && errorMessage == old(errorMessage))
                && (!reply.success ==> status == Error && errorMessage == Some(OrElse(reply.message, FAILED_TEXT)))
      ensures status == Error ==> errorMessage.Some? && errorMessage.value != ""
      ensures status != Confirming
    {
      if !Truthy(token) {
        status := Error;
        errorMessage := Some(NO_TOKEN_TEXT);
        sent := [];
        return;
      }
      sent := [token.value];
      var reply := Api.Confirm(confirm(token.value));
      if reply.success {
        status := Success;
      } else {
        status := Error;
        errorMessage := Some(OrElse(reply.message, FAILED_TEXT));
      }
    }
  }

  /** A network failure during confirmation shows the client's own message. */
  lemma UnreachableConfirmation(o: Outcome<ConfirmResponse>)
    requires !o.Responded?
    ensures !Api.Confirm(o).success
    ensures OrElse(Api.Confirm(o).message, FAILED_TEXT) == "Network error during confirmation"
  {
  }
}
