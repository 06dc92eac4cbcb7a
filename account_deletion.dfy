/**
 * The delete-account screen: a typed-email confirmation guards the delete request; a success
 * clears the test-account snapshot and ends the session.
 */
module AccountDeletion {
  import opened Wrappers
  import opened Types
  import opened Auth

  const MismatchMessage := "Email doesn't match. Account deletion canceled."
  const RevokeFailedMessage :=
    "There was an error revoking access to your account. Redirecting to where you can do it manually"
  const DeletedMessage := "Account successfully deleted"
  const DeleteFailedMessage := "Failed to delete account"
  const PermissionsPage := "https://myaccount.google.com/permissions"
  const HomePath := "/"

  /** The delete response's body: whether the backend revoked the provider's access. */
  datatype DeleteReply = DeleteReply(revokeAccess: bool)

  /** The delete request: the path carries the profile's `id`. */
  datatype DeleteRequest = DeleteRequest(userId: Option<string>)

  /** What settling the request does outside the component. */
  datatype Effects = Effects(
    notices: seq<Notice>,
    redirectScheduled: Option<string>,
    navigateTo: Option<string>)

  /** The text typed into the confirmation box is the profile's email address. */
  predicate Confirmed(typed: string, user: Option<User>) {
    user.Some? && typed == user.value.email
  }

  /** The message of a failed deletion: the server's when it has one, else the fixed one. */
  function FailureText(serverMessage: Option<string>): (text: string)
    ensures Truthy(serverMessage) ==> text == serverMessage.value
    ensures !Truthy(serverMessage) ==> text == DeleteFailedMessage
  {
    OrElse(serverMessage, Some(DeleteFailedMessage)).value
  }

  class DeleteAccount {
    const auth: AuthProvider
    var isDeleting: bool
    var confirmDelete: string
    /** The value under the `testInfo` storage key. */
    var testInfo: Option<string>

    constructor (auth: AuthProvider, testInfo: Option<string>)
      ensures this.auth == auth && this.testInfo == testInfo
      ensures !isDeleting && confirmDelete == ""
    {
      this.auth := auth;
      isDeleting := false;
      confirmDelete := "";
      this.testInfo := testInfo;
    }

    method SetConfirmDelete(typed: string)
      modifies this`confirmDelete
      ensures confirmDelete == typed
    {
      confirmDelete := typed;
    }

    /** Whether the "Delete My Account" button is disabled. */
    predicate DeleteDisabled()
      reads this, auth
    {
      !Confirmed(confirmDelete, auth.user)
    }

    /**
     * The start of `handleDeleteAccount`: an unconfirmed email raises a notice and changes
     * nothing else; a confirmed one marks the deletion in flight and sends the request.
     */
    method HandleDeleteAccount() returns (request: Option<DeleteRequest>, notices: seq<Notice>)
      modifies this`isDeleting
      ensures request.None? <==> old(DeleteDisabled())
      ensures request.None? ==> notices == [ErrorToast(MismatchMessage)] && isDeleting == old(isDeleting)
      ensures request.Some? ==>
        request == Some(DeleteRequest(auth.user.value.id)) && notices == [] && isDeleting
    {
      if !Confirmed(confirmDelete, auth.user) {
        request := None;
        notices := [ErrorToast(MismatchMessage)];
        return;
      }
      isDeleting := true;
      request := Some(DeleteRequest(auth.user.value.id));
      notices := [];
    }

    /**
     * The rest of `handleDeleteAccount` once the request ends. Success always removes the
     * snapshot, logs out and goes home, and schedules the permissions page as well when the
     * backend did not revoke access; failure only shows a message.
     */
    method SettleDelete(response: AxiosResult<DeleteReply>) returns (effects: Effects)
      modifies this`isDeleting, this`testInfo, auth
      ensures !isDeleting
      ensures response.Resolved? ==>
        testInfo == None && auth.token == None && auth.user == None && !auth.isAuthenticated &&
        !auth.isLoading &&
        effects.navigateTo == Some(HomePath) &&
        effects.redirectScheduled == (if response.data.revokeAccess then None else Some(PermissionsPage)) &&
        effects.notices ==
          (if response.data.revokeAccess then [] else [ErrorToast(RevokeFailedMessage)]) +
          [SuccessToast(DeletedMessage)]
      ensures response.Rejected? ==>
        testInfo == old(testInfo) && auth.token == old(auth.token) && auth.user == old(auth.user) &&
        auth.isAuthenticated == old(auth.isAuthenticated) && auth.isLoading == old(auth.isLoading) &&
        effects == Effects([ErrorToast(FailureText(response.serverMessage))], None, None)
    {
      match response {
        case Resolved(reply) =>
          var notices := [];
          var redirect := None;
          if !reply.revokeAccess {
            notices := [ErrorToast(RevokeFailedMessage)];
            redirect := Some(PermissionsPage);
          }
          notices := notices + [SuccessToast(DeletedMessage)];
          testInfo := None;
          auth.Logout();
          effects := Effects(notices, redirect, Some(HomePath));
        case Rejected(serverMessage, _) =>
          effects := Effects([ErrorToast(FailureText(serverMessage))], None, None);
      }
      isDeleting := false;
    }
  }
}
