/** The sign-up form (src/pages/Register.tsx): client-side checks, then the
    registration request. */
module RegisterPage {
  import opened Common
  import opened Api
  import opened AuthContext

  const FillAllFields: string := "Please fill in all fields"
  const PasswordTooShort: string := "Password must be at least 5 characters"
  const RegistrationFailed: string := "Registration failed"

  /** The shortest password the form accepts, in UTF-16 code units. */
  const MinPasswordLength: nat := 5

  /** The form's checks, in order: the complaint shown, or None when the
      request may be sent. Fields are not trimmed, so a field of spaces counts
      as filled. */
  function RegisterError(firstname: string, lastname: string, email: string, password: string): (r: Option<string>)
    ensures r.None? <==>
              firstname != "" && lastname != "" && email != "" && password != ""
              && Utf16Length(password) >= MinPasswordLength
    ensures r == Some(FillAllFields) <==> firstname == "" || lastname == "" || email == "" || password == ""
    ensures r == Some(PasswordTooShort) <==>
              firstname != "" && lastname != "" && email != "" && password != ""
              && Utf16Length(password) < MinPasswordLength
  {
    if firstname == "" || lastname == "" || email == "" || password == "" then Some(FillAllFields)
    else if Utf16Length(password) < MinPasswordLength then Some(PasswordTooShort)
    else None
  }

  /** Five characters always pass the length check; fewer than three never do,
      since no character is more than two code units. */
  lemma PasswordLengthBounds(password: string)
    ensures |password| >= 5 ==> Utf16Length(password) >= MinPasswordLength
    ensures |password| < 3 ==> Utf16Length(password) < MinPasswordLength
  {
  }

  class RegisterForm {
    var isLoading: bool
    const auth: AuthProvider

    constructor (auth: AuthProvider)
      ensures this.auth == auth && !isLoading
    {
      this.auth := auth;
      isLoading := false;
    }

    /** `handleSubmit`, with the backend's answer `reply`. A form that fails a
        check sends nothing; otherwise each field goes to `register` under its
        own name, and the page moves to sign-in exactly when the account was
        created. `sent` is the registration body, if any. */
    method HandleSubmit(firstname: string, lastname: string, email: string, password: string, reply: Response<()>)
      returns (sent: Option<Registration>, navigateTo: Option<string>, error: Option<string>)
      requires !isLoading
      modifies this
      ensures !isLoading
      ensures sent.Some? <==> RegisterError(firstname, lastname, email, password).None?
      ensures sent.Some? ==>
                sent.value.email == email && sent.value.password == password
                && sent.value.firstname == firstname && sent.value.lastname == lastname
      ensures sent.None? ==> navigateTo == None && error == RegisterError(firstname, lastname, email, password)
      ensures sent.Some? && reply.Ok? ==> navigateTo == Some("/login") && error == None
      ensures sent.Some? && reply.Failed? ==> navigateTo == None && error == Some(OrElse(reply.message, RegistrationFailed))
    {
      var complaint := RegisterError(firstname, lastname, email, password);
      if complaint.Some? {
        return None, None, complaint;
      }
      isLoading := true;
      var result, request := auth.Register(email, password, firstname, lastname, reply);
      sent := Some(request);
      if result.Ok? {
        navigateTo, error := Some("/login"), None;
      } else {
        navigateTo, error := None, Some(OrElse(result.message, RegistrationFailed));
      }
      isLoading := false;
    }
  }
}
