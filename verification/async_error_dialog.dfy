/** The dialog that shows the error store's failure: open while there is
    one, with a message and a close action chosen from the failure. */
module ErrorDialog {
  import opened Remote
  import opened Errors
  import opened Auth

  const GenericMessage: string := "We are sorry but an unexpected error happened"
  const SessionExpiredMessage: string := "Seems your credential is no longer valid. Please try to sign-in again."

  /** A store action the close handler performs. */
  datatype CloseStep = ClearCredentials | ClearError

  /** What the dialog renders and what closing it does. */
  datatype DialogView = DialogView(open: bool, message: string, onClose: seq<CloseStep>)

  /** An AxiosError whose response has status 401. */
  predicate IsUnauthorized(error: Option<Failure>)
  {
    error.Some? && error.value.HttpError? && error.value.status == Some(401)
  }

  /** The dialog for the error store's current `error`. */
  function View(error: Option<Failure>): (v: DialogView)
    ensures v.open <==> error.Some?
    ensures v.message == SessionExpiredMessage <==> IsUnauthorized(error)
    ensures v.message == GenericMessage <==> !IsUnauthorized(error)
    ensures |v.onClose| >= 1 && v.onClose[|v.onClose| - 1] == ClearError
    ensures ClearCredentials in v.onClose <==> IsUnauthorized(error)
  {
    if IsUnauthorized(error)
    then DialogView(error.Some?, SessionExpiredMessage, [ClearCredentials, ClearError])
    else DialogView(error.Some?, GenericMessage, [ClearError])
  }

  /** Closing the dialog: for a 401 the credentials are cleared and then the
      error; for anything else only the error is cleared. */
  method Close(errors: ErrorStore, auth: AuthStore)
    modifies errors, auth
    ensures errors.error == None
    ensures IsUnauthorized(old(errors.error)) ==> auth.username == "" && auth.authToken == ""
    ensures !IsUnauthorized(old(errors.error)) ==> auth.username == old(auth.username) && auth.authToken == old(auth.authToken)
  {
    var v := View(errors.error);
    if v.onClose == [ClearCredentials, ClearError] {
      auth.ClearCredentials();
    }
    errors.ClearError();
  }
}
