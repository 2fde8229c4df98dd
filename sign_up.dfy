/**
 * The sign-up screen's logic: the field-keyed validation of the
 * registration form, the service-category toggle, the single-field form
 * update and the user record built on success.
 */
module SignUp {
  import opened Types
  import opened Email

  datatype SignUpForm = SignUpForm(
    name: string,
    email: string,
    phone: string,
    password: string,
    confirmPassword: string,
    address: string,
    businessName: string,
    licenseNumber: string,
    insuranceNumber: string)

  const EmptyForm: SignUpForm := SignUpForm("", "", "", "", "", "", "", "", "")

  /** The fields `updateFormData` is called with. */
  datatype SignUpField =
    | NameField | EmailField | PhoneField | PasswordField | ConfirmPasswordField
    | AddressField | BusinessNameField | LicenseNumberField | InsuranceNumberField

  function FieldValue(form: SignUpForm, f: SignUpField): string {
    match f
    case NameField => form.name
    case EmailField => form.email
    case PhoneField => form.phone
    case PasswordField => form.password
    case ConfirmPasswordField => form.confirmPassword
    case AddressField => form.address
    case BusinessNameField => form.businessName
    case LicenseNumberField => form.licenseNumber
    case InsuranceNumberField => form.insuranceNumber
  }

  /** `{ ...prev, [field]: value }`: field `f` takes the value, every other field keeps its own. */
  function UpdateFormData(form: SignUpForm, f: SignUpField, value: string): (r: SignUpForm)
    ensures FieldValue(r, f) == value
    ensures forall g :: g != f ==> FieldValue(r, g) == FieldValue(form, g)
  {
    match f
    case NameField => form.(name := value)
    case EmailField => form.(email := value)
    case PhoneField => form.(phone := value)
    case PasswordField => form.(password := value)
    case ConfirmPasswordField => form.(confirmPassword := value)
    case AddressField => form.(address := value)
    case BusinessNameField => form.(businessName := value)
    case LicenseNumberField => form.(licenseNumber := value)
    case InsuranceNumberField => form.(insuranceNumber := value)
  }

  /** The keys the sign-up validation can report, each with the name the
      error map uses for it; `phone` is not among them. */
  datatype SignUpKey =
    | NameKey | EmailKey | PasswordKey | ConfirmPasswordKey | AddressKey
    | BusinessNameKey | LicenseNumberKey | InsuranceNumberKey | CategoriesKey
  {
    function KeyName(): string {
      match this
      case NameKey => "name"
      case EmailKey => "email"
      case PasswordKey => "password"
      case ConfirmPasswordKey => "confirmPassword"
      case AddressKey => "address"
      case BusinessNameKey => "businessName"
      case LicenseNumberKey => "licenseNumber"
      case InsuranceNumberKey => "insuranceNumber"
      case CategoriesKey => "categories"
    }
  }

  lemma PhoneIsNeverAKey(k: SignUpKey)
    ensures k.KeyName() != "phone"
  {
  }

  /** The messages the sign-up validation shows, one per failed check. */
  const NameRequired: string := "Name is required"
  const EmailRequired: string := "Email is required"
  const EmailInvalid: string := "Email is invalid"
  const PasswordRequired: string := "Password is required"
  const PasswordTooShort: string := "Password must be at least 6 characters"
  const PasswordsDiffer: string := "Passwords do not match"
  const AddressRequired: string := "Address is required"
  const BusinessNameRequired: string := "Business name is required"
  const LicenseNumberRequired: string := "License number is required"
  const InsuranceNumberRequired: string := "Insurance number is required"
  const CategoriesRequired: string := "Please select at least one service category"

  /** A registration the form accepts, field by field. */
  predicate SignUpAcceptable(form: SignUpForm, role: SignInRole, selected: seq<ServiceCategory>) {
    && form.name != ""
    && form.email != "" && IsEmailLike(form.email)
    && |form.password| >= 6
    && form.password == form.confirmPassword
    && (role == AsCustomer ==> form.address != "")
    && (role == AsProfessional ==>
          form.businessName != "" && form.licenseNumber != "" && form.insuranceNumber != ""
          && |selected| > 0)
  }

  /** The keys only the role-specific checks report. */
  predicate IsRoleKey(k: SignUpKey) {
    k.AddressKey? || k.BusinessNameKey? || k.LicenseNumberKey? || k.InsuranceNumberKey? || k.CategoriesKey?
  }

  /** `validateForm`: fills the error map one check at a time, the account
      checks first and then the role checks; the form is valid iff the map
      is empty. */
  method ValidateSignUp(form: SignUpForm, role: SignInRole, selected: seq<ServiceCategory>)
    returns (errors: map<SignUpKey, string>, valid: bool)
    ensures (NameKey in errors) == (form.name == "")
    ensures NameKey in errors ==> errors[NameKey] == NameRequired
    ensures (EmailKey in errors) == (form.email == "" || !IsEmailLike(form.email))
    ensures EmailKey in errors ==>
      errors[EmailKey] == if form.email == "" then EmailRequired else EmailInvalid
    ensures (PasswordKey in errors) == (|form.password| < 6)
    ensures PasswordKey in errors ==>
      errors[PasswordKey] == if form.password == "" then PasswordRequired
                             else PasswordTooShort
    ensures (ConfirmPasswordKey in errors) == (form.password != form.confirmPassword)
    ensures ConfirmPasswordKey in errors ==> errors[ConfirmPasswordKey] == PasswordsDiffer
    ensures (AddressKey in errors) == (role == AsCustomer && form.address == "")
    ensures AddressKey in errors ==> errors[AddressKey] == AddressRequired
    ensures (BusinessNameKey in errors) == (role == AsProfessional && form.businessName == "")
    ensures BusinessNameKey in errors ==> errors[BusinessNameKey] == BusinessNameRequired
    ensures (LicenseNumberKey in errors) == (role == AsProfessional && form.licenseNumber == "")
    ensures LicenseNumberKey in errors ==> errors[LicenseNumberKey] == LicenseNumberRequired
    ensures (InsuranceNumberKey in errors) == (role == AsProfessional && form.insuranceNumber == "")
    ensures InsuranceNumberKey in errors ==> errors[InsuranceNumberKey] == InsuranceNumberRequired
    ensures (CategoriesKey in errors) == (role == AsProfessional && |selected| == 0)
    ensures CategoriesKey in errors ==>
      errors[CategoriesKey] == CategoriesRequired
    ensures valid <==> errors == map[]
    ensures valid <==> SignUpAcceptable(form, role, selected)
  {
    var account := AccountErrors(form);
    errors := AddRoleErrors(account, form, role, selected);
    valid := |errors| == 0;
    NoErrorsIffAcceptable(errors, form, role, selected);
  }

  /** Given the per-key facts `validateForm` establishes, the error map is
      empty exactly when the registration is acceptable. */
  lemma NoErrorsIffAcceptable(errors: map<SignUpKey, string>, form: SignUpForm, role: SignInRole,
                              selected: seq<ServiceCategory>)
    requires (NameKey in errors) == (form.name == "")
    requires (EmailKey in errors) == (form.email == "" || !IsEmailLike(form.email))
    requires (PasswordKey in errors) == (|form.password| < 6)
    requires (ConfirmPasswordKey in errors) == (form.password != form.confirmPassword)
    requires (AddressKey in errors) == (role == AsCustomer && form.address == "")
    requires (BusinessNameKey in errors) == (role == AsProfessional && form.businessName == "")
    requires (LicenseNumberKey in errors) == (role == AsProfessional && form.licenseNumber == "")
    requires (InsuranceNumberKey in errors) == (role == AsProfessional && form.insuranceNumber == "")
    requires (CategoriesKey in errors) == (role == AsProfessional && |selected| == 0)
    ensures |errors| == 0 <==> errors == map[]
    ensures errors == map[] <==> SignUpAcceptable(form, role, selected)
  {
    EmptyIffNoKeys(errors);
  }

  /** A sign-up error map is empty exactly when none of the nine keys is in it. */
  lemma EmptyIffNoKeys(errors: map<SignUpKey, string>)
    ensures |errors| == 0 <==> errors == map[]
    ensures errors == map[] <==>
      && NameKey !in errors && EmailKey !in errors && PasswordKey !in errors
      && ConfirmPasswordKey !in errors && AddressKey !in errors && BusinessNameKey !in errors
      && LicenseNumberKey !in errors && InsuranceNumberKey !in errors && CategoriesKey !in errors
  {
    if errors != map[] {
      var k :| k in errors;
      match k
      case NameKey =>
      case EmailKey =>
      case PasswordKey =>
      case ConfirmPasswordKey =>
      case AddressKey =>
      case BusinessNameKey =>
      case LicenseNumberKey =>
      case InsuranceNumberKey =>
      case CategoriesKey =>
    }
  }

  /** The first half of `validateForm`: name, e-mail, password and its confirmation. */
  method AccountErrors(form: SignUpForm) returns (errors: map<SignUpKey, string>)
    ensures forall k :: k in errors ==> !IsRoleKey(k)
    ensures (NameKey in errors) == (form.name == "")
    ensures NameKey in errors ==> errors[NameKey] == NameRequired
    ensures (EmailKey in errors) == (form.email == "" || !IsEmailLike(form.email))
    ensures EmailKey in errors ==>
      errors[EmailKey] == if form.email == "" then EmailRequired else EmailInvalid
    ensures (PasswordKey in errors) == (|form.password| < 6)
    ensures PasswordKey in errors ==>
      errors[PasswordKey] == if form.password == "" then PasswordRequired
                             else PasswordTooShort
    ensures (ConfirmPasswordKey in errors) == (form.password != form.confirmPassword)
    ensures ConfirmPasswordKey in errors ==> errors[ConfirmPasswordKey] == PasswordsDiffer
  {
    errors := map[];
    if form.name == "" {
      errors := errors[NameKey := NameRequired];
    }
    if form.email == "" {
      errors := errors[EmailKey := EmailRequired];
    } else if !IsEmailLike(form.email) {
      errors := errors[EmailKey := EmailInvalid];
    }
    if form.password == "" {
      errors := errors[PasswordKey := PasswordRequired];
    } else if |form.password| < 6 {
      errors := errors[PasswordKey := PasswordTooShort];
    }
    if form.password != form.confirmPassword {
      errors := errors[ConfirmPasswordKey := PasswordsDiffer];
    }
  }

  /** The second half of `validateForm`: the address for a customer; business
      name, licence, insurance and categories for a professional.  Entries
      already in the map are kept. */
  method AddRoleErrors(errors0: map<SignUpKey, string>, form: SignUpForm, role: SignInRole,
                       selected: seq<ServiceCategory>)
    returns (errors: map<SignUpKey, string>)
    requires forall k :: k in errors0 ==> !IsRoleKey(k)
    ensures forall k :: !IsRoleKey(k) ==> (k in errors <==> k in errors0) && (k in errors0 ==> errors[k] == errors0[k])
    ensures (AddressKey in errors) == (role == AsCustomer && form.address == "")
    ensures AddressKey in errors ==> errors[AddressKey] == AddressRequired
    ensures (BusinessNameKey in errors) == (role == AsProfessional && form.businessName == "")
    ensures BusinessNameKey in errors ==> errors[BusinessNameKey] == BusinessNameRequired
    ensures (LicenseNumberKey in errors) == (role == AsProfessional && form.licenseNumber == "")
    ensures LicenseNumberKey in errors ==> errors[LicenseNumberKey] == LicenseNumberRequired
    ensures (InsuranceNumberKey in errors) == (role == AsProfessional && form.insuranceNumber == "")
    ensures InsuranceNumberKey in errors ==> errors[InsuranceNumberKey] == InsuranceNumberRequired
    ensures (CategoriesKey in errors) == (role == AsProfessional && |selected| == 0)
    ensures CategoriesKey in errors ==>
      errors[CategoriesKey] == CategoriesRequired
  {
    errors := errors0;
    if role == AsCustomer && form.address == "" {
      errors := errors[AddressKey := AddressRequired];
    }
    if role == AsProfessional {
      if form.businessName == "" {
        errors := errors[BusinessNameKey := BusinessNameRequired];
      }
      if form.licenseNumber == "" {
        errors := errors[LicenseNumberKey := LicenseNumberRequired];
      }
      if form.insuranceNumber == "" {
        errors := errors[InsuranceNumberKey := InsuranceNumberRequired];
      }
      if |selected| == 0 {
        errors := errors[CategoriesKey := CategoriesRequired];
      }
    }
  }

  /** `handleSignUp`: nothing is produced when validation fails; otherwise the
      user carries the entered name, e-mail and phone and the selected role. */
  method SubmitSignUp(form: SignUpForm, role: SignInRole, selected: seq<ServiceCategory>, now: Timestamp)
    returns (errors: map<SignUpKey, string>, user: Option<User>)
    ensures user.Some? <==> SignUpAcceptable(form, role, selected)
    ensures user.Some? <==> errors == map[]
    ensures user.Some? ==>
      && user.value.email == form.email && user.value.name == form.name
      && user.value.phone == Some(form.phone)
      && user.value.userType == role.ToUserType() && user.value.userType != AdminUser
      && user.value.id == "1" && user.value.createdAt == now && user.value.updatedAt == now
  {
    var valid;
    errors, valid := ValidateSignUp(form, role, selected);
    if !valid {
      return errors, None;
    }
    user := Some(User("1", form.email, Some(form.phone), form.name, role.ToUserType(), now, now));
  }

  /** `prev.filter(c => c !== category)`. */
  function RemoveAll(s: seq<ServiceCategory>, c: ServiceCategory): (r: seq<ServiceCategory>)
    ensures |r| <= |s|
  {
    if s == [] then []
    else (if s[0] == c then [] else [s[0]]) + RemoveAll(s[1..], c)
  }

  /** `toggleCategory`: drop every copy of `c` if present, otherwise append it. */
  function ToggleCategory(prev: seq<ServiceCategory>, c: ServiceCategory): seq<ServiceCategory> {
    if c in prev then RemoveAll(prev, c) else prev + [c]
  }

  lemma {:induction false} RemoveAllMembers(s: seq<ServiceCategory>, c: ServiceCategory)
    ensures forall x :: x in RemoveAll(s, c) <==> x in s && x != c
  {
    if s != [] {
      RemoveAllMembers(s[1..], c);
      assert s == [s[0]] + s[1..];
    }
  }

  lemma {:induction false} RemoveAllAbsent(s: seq<ServiceCategory>, c: ServiceCategory)
    requires c !in s
    ensures RemoveAll(s, c) == s
  {
    if s != [] {
      assert s[0] in s;
      assert c !in s[1..] by {
        assert forall x :: x in s[1..] ==> x in s;
      }
      RemoveAllAbsent(s[1..], c);
    }
  }

  lemma {:induction false} RemoveAllAppend(s: seq<ServiceCategory>, t: seq<ServiceCategory>, c: ServiceCategory)
    ensures RemoveAll(s + t, c) == RemoveAll(s, c) + RemoveAll(t, c)
  {
    if s == [] {
      assert s + t == t;
    } else {
      assert (s + t)[1..] == s[1..] + t;
      RemoveAllAppend(s[1..], t, c);
    }
  }

  /** Toggling flips the membership of `c`, keeps every other category's
      membership, and leaves the other categories in their old order. */
  lemma ToggleCategoryEffect(prev: seq<ServiceCategory>, c: ServiceCategory)
    ensures c in ToggleCategory(prev, c) <==> c !in prev
    ensures forall x :: x != c ==> (x in ToggleCategory(prev, c) <==> x in prev)
    ensures RemoveAll(ToggleCategory(prev, c), c) == RemoveAll(prev, c)
    ensures c !in prev ==> ToggleCategory(prev, c) == prev + [c]
  {
    RemoveAllMembers(prev, c);
    var r := ToggleCategory(prev, c);
    if c in prev {
      RemoveAllMembers(r, c);
      RemoveAllAbsent(r, c);
    } else {
      RemoveAllAppend(prev, [c], c);
      RemoveAllAbsent(prev, c);
      assert RemoveAll([c], c) == [];
    }
  }

  /** Selecting and then deselecting a category restores the selection. */
  lemma ToggleTwiceRestores(prev: seq<ServiceCategory>, c: ServiceCategory)
    requires c !in prev
    ensures ToggleCategory(ToggleCategory(prev, c), c) == prev
  {
    ToggleCategoryEffect(prev, c);
    RemoveAllAbsent(prev, c);
  }
}
