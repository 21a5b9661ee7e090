/** The sign-in form: e-mail and password fields, a validity flag kept in
    step with them, and a loading flag around the submission. */
module SignInForm {
  import opened Remote

  const HomePath: string := "/"

  /** A call of `onSubmit`, with the loading flag as it was during the call. */
  datatype Submission = Submission(email: string, password: string, loading: bool)

  class SignIn {
    var email: string
    var password: string
    var loading: bool
    var isFormValid: bool
    /** Every `onSubmit` call made so far. */
    ghost var submissions: seq<Submission>

    /** The validity flag always says whether both fields are filled in. */
    ghost predicate Valid()
      reads this
    {
      isFormValid <==> email != "" && password != ""
    }

    constructor ()
      ensures Valid()
      ensures email == "" && password == "" && !loading && !isFormValid && submissions == []
    {
      email, password := "", "";
      loading, isFormValid := false, false;
      submissions := [];
    }

    /** `handleEmailChanged`: the new e-mail, judged together with the
        current password. */
    method HandleEmailChanged(value: string)
      requires Valid()
      modifies this
      ensures Valid()
      ensures email == value && isFormValid == (value != "" && old(password) != "")
      ensures password == old(password) && loading == old(loading) && submissions == old(submissions)
    {
      email := value;
      isFormValid := value != "" && password != "";
    }

    /** `handlePasswordChanged`: the new password, judged together with the
        current e-mail. */
    method HandlePasswordChanged(value: string)
      requires Valid()
      modifies this
      ensures Valid()
      ensures password == value && isFormValid == (value != "" && old(email) != "")
      ensures email == old(email) && loading == old(loading) && submissions == old(submissions)
    {
      password := value;
      isFormValid := value != "" && email != "";
    }

    /** `handleSubmit`: with both fields filled, `onSubmit` is called while
        loading, loading ends, and the home page is opened only when
        `onSubmit` answers true; otherwise nothing happens. */
    method HandleSubmit(onSubmit: (string, string) -> bool) returns (navigateTo: Option<string>)
      requires Valid()
      modifies this
      ensures Valid()
      ensures email == old(email) && password == old(password) && isFormValid == old(isFormValid)
      ensures old(email) != "" && old(password) != "" ==>
                submissions == old(submissions) + [Submission(email, password, true)] && !loading &&
                navigateTo == (if onSubmit(email, password) then Some(HomePath) else None)
      ensures !(old(email) != "" && old(password) != "") ==>
                submissions == old(submissions) && loading == old(loading) && navigateTo == None
    {
      navigateTo := None;
      if email != "" && password != "" {
        loading := true;
        submissions := submissions + [Submission(email, password, loading)];
        var result := onSubmit(email, password);
        loading := false;
        if result {
          navigateTo := Some(HomePath);
        }
      }
    }

    /** The sign-in button's `disabled`: it is enabled only when both fields
        are filled in and no submission is under way. */
    function SubmitDisabled(): (disabled: bool)
      reads this
      requires Valid()
      ensures !disabled <==> email != "" && password != "" && !loading
    {
      !isFormValid || loading
    }
  }
}
