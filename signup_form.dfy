/** The sign-up form: its schema with the password-match refinement, and the mock sign-up that
    signs the new user in. */
module SignupForm {
  import opened Wrappers
  import opened Types
  import Auth

  /** The two account types the form offers. */
  datatype AccountType = PersonalAccount | BusinessAccount {

    /** The role the form puts on the mock user for this account type. */
    function AsRole(): (r: Role)
      ensures r == BusinessOwner <==> this == BusinessAccount
      ensures r != Admin
    {
      if this == BusinessAccount then BusinessOwner else RegularUser
    }
  }

  /** The form fields an issue can be attached to. */
  datatype Field = Name | Email | Password | ConfirmPassword | AccountTypeField

  /** The problems `formSchema` can report, each shown on one field. */
  datatype Issue = NameTooShort | InvalidEmail | PasswordTooShort | ConfirmTooShort | AccountTypeRequired | PasswordsDontMatch {

    /** The field an issue is shown on. */
    function Path(): (f: Field)
      ensures this == PasswordsDontMatch ==> f == ConfirmPassword
    {
      match this
      case NameTooShort => Name
      case InvalidEmail => Email
      case PasswordTooShort => Password
      case ConfirmTooShort => ConfirmPassword
      case AccountTypeRequired => AccountTypeField
      case PasswordsDontMatch => ConfirmPassword
    }
  }

  /** The form's values before validation; no account type may have been chosen. */
  datatype Input = Input(name: string, email: string, password: string, confirmPassword: string, accountType: Option<AccountType>)

  /** The values validation hands to the submit handler. */
  datatype Values = Values(name: string, email: string, password: string, confirmPassword: string, accountType: AccountType)

  /** The issues `formSchema` reports; `isEmail` is the e-mail format check. The match refinement runs
      only when the account type is present (a missing enum value aborts it), and then fails exactly
      when the two passwords differ. */
  function Issues(v: Input, isEmail: string -> bool): (issues: set<Issue>)
    ensures NameTooShort in issues <==> |v.name| < 2
    ensures InvalidEmail in issues <==> !isEmail(v.email)
    ensures PasswordTooShort in issues <==> |v.password| < 6
    ensures ConfirmTooShort in issues <==> |v.confirmPassword| < 6
    ensures AccountTypeRequired in issues <==> v.accountType.None?
    ensures PasswordsDontMatch in issues <==> v.accountType.Some? && v.password != v.confirmPassword
  {
    (if |v.name| >= 2 then {} else {NameTooShort}) +
    (if isEmail(v.email) then {} else {InvalidEmail}) +
    (if |v.password| >= 6 then {} else {PasswordTooShort}) +
    (if |v.confirmPassword| >= 6 then {} else {ConfirmTooShort}) +
    (if v.accountType.Some? then {} else {AccountTypeRequired}) +
    (if v.accountType.None? || v.password == v.confirmPassword then {} else {PasswordsDontMatch})
  }

  /** Validation as the resolver applies it: the parsed values, or the issues found. */
  function Parse(v: Input, isEmail: string -> bool): (r: Result<Values, set<Issue>>)
    ensures r.Success? <==>
              |v.name| >= 2 && isEmail(v.email) && |v.password| >= 6 && |v.confirmPassword| >= 6 &&
              v.accountType.Some? && v.password == v.confirmPassword
    ensures r.Success? ==>
              r.value == Values(v.name, v.email, v.password, v.confirmPassword, v.accountType.value)
    ensures r.Failure? ==> r.error == Issues(v, isEmail) && r.error != {}
  {
    var issues := Issues(v, isEmail);
    if issues == {} then
      Success(Values(v.name, v.email, v.password, v.confirmPassword, v.accountType.value))
    else
      assert issues != {};
      Failure(issues)
  }

  /** The form starts with the personal account type selected, so the account type is never missing. */
  const Defaults := Input("", "", "", "", Some(PersonalAccount))

  lemma DefaultsRejected(isEmail: string -> bool)
    requires !isEmail("")
    ensures Issues(Defaults, isEmail) == {NameTooShort, InvalidEmail, PasswordTooShort, ConfirmTooShort}
  {
  }

  /** The record the mock sign-up passes to `login`: id "mock-" + stamp, the form's e-mail and name,
      and the chosen account type as role. */
  function MockUser(v: Values, stamp: string): (u: User)
    ensures u.id == "mock-" + stamp && u.email == v.email && u.name == Some(v.name)
    ensures u.role == v.accountType.AsRole()
  {
    User("mock-" + stamp, v.email, Some(v.name), v.accountType.AsRole())
  }

  /** Signed in, the new user's role depends on the e-mail only: choosing a business account with any
      other address gives an ordinary user, and the owner address gives an owner whatever was chosen. */
  lemma AccountTypeOverridden(v: Values, stamp: string)
    ensures Auth.SignedIn(MockUser(v, stamp)).role == (if v.email == Auth.OwnerEmail then BusinessOwner else RegularUser)
    ensures v.accountType == BusinessAccount && v.email != Auth.OwnerEmail ==>
              Auth.SignedIn(MockUser(v, stamp)).role == RegularUser
    ensures Auth.SignedIn(MockUser(v, stamp)) == Auth.SignedIn(MockUser(v.(accountType := PersonalAccount), stamp))
  {
  }

  /** `onSubmit`: signs the mock user in. */
  method OnSubmit(auth: Auth.AuthProvider, v: Values, stamp: string)
    modifies auth
    ensures auth.user == Some(Auth.SignedIn(MockUser(v, stamp)))
    ensures auth.user.value.role == BusinessOwner <==> v.email == Auth.OwnerEmail
    ensures auth.storage == old(auth.storage)[Auth.StorageKey := Auth.Serialized(auth.user.value)]
    ensures auth.loading == old(auth.loading)
    ensures auth.Valid()
  {
    auth.Login(MockUser(v, stamp));
  }
}
