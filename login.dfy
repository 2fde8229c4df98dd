/**
 * The login screen's logic: the two-field validation and the user record
 * handed to the navigator on success.
 */
module Login {
  import opened Types
  import opened Email

  /** The keys the login validation can report, with the names the error map uses. */
  datatype LoginKey = EmailKey | PasswordKey {
    function KeyName(): string {
      match this
      case EmailKey => "email"
      case PasswordKey => "password"
    }
  }

  /** Credentials the form accepts. */
  predicate LoginAcceptable(email: string, password: string) {
    email != "" && IsEmailLike(email) && |password| >= 6
  }

  /** `validateForm`: fills the error map field by field; valid iff it is empty. */
  method ValidateLogin(email: string, password: string)
    returns (errors: map<LoginKey, string>, valid: bool)
    ensures (EmailKey in errors) == (email == "" || !IsEmailLike(email))
    ensures EmailKey in errors ==>
      errors[EmailKey] == if email == "" then "Email is required" else "Email is invalid"
    ensures (PasswordKey in errors) == (|password| < 6)
    ensures PasswordKey in errors ==>
      errors[PasswordKey] == if password == "" then "Password is required"
                             else "Password must be at least 6 characters"
    ensures valid <==> errors == map[]
    ensures valid <==> LoginAcceptable(email, password)
  {
    errors := map[];
    if email == "" {
      errors := errors[EmailKey := "Email is required"];
    } else if !IsEmailLike(email) {
      errors := errors[EmailKey := "Email is invalid"];
    }
    if password == "" {
      errors := errors[PasswordKey := "Password is required"];
    } else if |password| < 6 {
      errors := errors[PasswordKey := "Password must be at least 6 characters"];
    }
    valid := |errors| == 0;
    if !valid {
      assert errors.Keys != {};
    }
  }

  /** The role selector starts on customer. */
  const InitialRole: SignInRole := AsCustomer

  /** `handleLogin`: when validation fails `onLogin` is not reached and no user
      is produced; otherwise the user carries the entered e-mail and the
      selected role. */
  method SubmitLogin(email: string, password: string, role: SignInRole, now: Timestamp)
    returns (errors: map<LoginKey, string>, user: Option<User>)
    ensures user.Some? <==> LoginAcceptable(email, password)
    ensures user.Some? <==> errors == map[]
    ensures user.Some? ==>
      && user.value.email == email
      && user.value.userType == role.ToUserType() && user.value.userType != AdminUser
      && user.value.id == "1" && user.value.name == "John Doe" && user.value.phone == None
      && user.value.createdAt == now && user.value.updatedAt == now
  {
    var valid;
    errors, valid := ValidateLogin(email, password);
    if !valid {
      return errors, None;
    }
    user := Some(User("1", email, None, "John Doe", role.ToUserType(), now, now));
  }

  /** With the default role, a successful login signs in a customer. */
  lemma DefaultRoleIsCustomer()
    ensures InitialRole.ToUserType() == CustomerUser
  {
  }
}
