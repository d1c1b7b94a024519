/** The client's registration screen: the form check that runs its tests
    in a fixed order and reports only the first failure, and the submit
    handler that refuses an email already in the data service before
    registering the new account. */
module RegisterForm {
  import opened Common
  import opened MockStore

  /** JavaScript's `s.length`: the number of UTF-16 code units, so a
      character outside the Basic Multilingual Plane counts twice. */
  function Utf16Length(s: string): (n: nat)
    ensures n >= |s|
    ensures n <= 2 * |s|
    ensures (forall i :: 0 <= i < |s| ==> s[i] as int <= 0xFFFF) ==> n == |s|
  {
    if s == [] then 0
    else Utf16Length(s[..|s| - 1]) + (if s[|s| - 1] as int > 0xFFFF then 2 else 1)
  }

  /** The UTF-16 length of a concatenation is the sum of the lengths. */
  lemma {:induction false} Utf16LengthAppend(a: string, b: string)
    ensures Utf16Length(a + b) == Utf16Length(a) + Utf16Length(b)
    decreases |b|
  {
    if b == [] {
      assert a + b == a;
    } else {
      var b' := b[..|b| - 1];
      assert (a + b)[..|a + b| - 1] == a + b';
      Utf16LengthAppend(a, b');
    }
  }

  const NAME_MISSING := "Please enter your full name"
  const EMAIL_MISSING := "Please enter your email address"
  const EMAIL_INVALID := "Please enter a valid email address"
  const PHONE_MISSING := "Please enter your phone number"
  const PHONE_INVALID := "Please enter a valid phone number"
  const PASSWORD_MISSING := "Please enter a password"
  const PASSWORD_SHORT := "Password must be at least 6 characters long"
  const PASSWORD_MISMATCH := "Passwords do not match"

  /** The registration form as typed. */
  datatype Form = Form(name: string, email: string, phone: string, password: string, confirmPassword: string)

  /** `validateForm`: `None` when the form passes, otherwise the message of
      the first test that fails, in the order name, email present, email
      shape, phone present, phone length, password present, password
      length, confirmation. */
  function FormError(f: Form): (r: Option<string>)
    ensures IsBlank(f.name) ==> r == Some(NAME_MISSING)
    ensures !IsBlank(f.name) && IsBlank(f.email) ==> r == Some(EMAIL_MISSING)
    ensures !IsBlank(f.name) && !IsBlank(f.email) && (!Contains(f.email, "@") || !Contains(f.email, ".")) ==>
      r == Some(EMAIL_INVALID)
    ensures r.None? ==> Contains(f.email, "@") && Contains(f.email, ".")
    ensures r.None? ==> Utf16Length(f.phone) >= 10 && Utf16Length(f.password) >= 6
    ensures r.None? ==> f.password == f.confirmPassword
  {
    if IsBlank(f.name) then Some(NAME_MISSING)
    else if IsBlank(f.email) then Some(EMAIL_MISSING)
    else if !Contains(f.email, "@") || !Contains(f.email, ".") then Some(EMAIL_INVALID)
    else if IsBlank(f.phone) then Some(PHONE_MISSING)
    else if Utf16Length(f.phone) < 10 then Some(PHONE_INVALID)
    else if IsBlank(f.password) then Some(PASSWORD_MISSING)
    else if Utf16Length(f.password) < 6 then Some(PASSWORD_SHORT)
    else if f.password != f.confirmPassword then Some(PASSWORD_MISMATCH)
    else None
  }

  /** Every test the form runs, taken together. */
  predicate PassesAll(f: Form)
  {
    && !IsBlank(f.name)
    && !IsBlank(f.email) && Contains(f.email, "@") && Contains(f.email, ".")
    && !IsBlank(f.phone) && Utf16Length(f.phone) >= 10
    && !IsBlank(f.password) && Utf16Length(f.password) >= 6
    && f.password == f.confirmPassword
  }

  /** The form is accepted exactly when every test passes. */
  lemma FormAcceptedIff(f: Form)
    ensures FormError(f).None? <==> PassesAll(f)
  {
  }

  /** The tests after the email shape are reported in order: the phone's
      tests before the password's, each only when all earlier ones pass. */
  lemma FormLaterChecks(f: Form)
    requires !IsBlank(f.name) && !IsBlank(f.email) && Contains(f.email, "@") && Contains(f.email, ".")
    ensures IsBlank(f.phone) ==> FormError(f) == Some(PHONE_MISSING)
    ensures !IsBlank(f.phone) && Utf16Length(f.phone) < 10 ==> FormError(f) == Some(PHONE_INVALID)
    ensures !IsBlank(f.phone) && Utf16Length(f.phone) >= 10 && IsBlank(f.password) ==>
      FormError(f) == Some(PASSWORD_MISSING)
    ensures (!IsBlank(f.phone) && Utf16Length(f.phone) >= 10 && !IsBlank(f.password)
             && Utf16Length(f.password) < 6) ==> FormError(f) == Some(PASSWORD_SHORT)
    ensures (!IsBlank(f.phone) && Utf16Length(f.phone) >= 10 && !IsBlank(f.password)
             && Utf16Length(f.password) >= 6 && f.password != f.confirmPassword) ==>
      FormError(f) == Some(PASSWORD_MISMATCH)
  {
  }

  /** Only the first failure is reported: a blank name hides every other
      mistake in the form. */
  lemma FirstFailureOnly(f: Form, g: Form)
    requires IsBlank(f.name) && g.name == f.name
    ensures FormError(f) == FormError(g) == Some(NAME_MISSING)
  {
  }

  /** A refused form always shows one of the eight messages. */
  lemma RefusalMessages(f: Form)
    ensures FormError(f).Some? ==> (FormError(f).value in
      {NAME_MISSING, EMAIL_MISSING, EMAIL_INVALID, PHONE_MISSING, PHONE_INVALID,
       PASSWORD_MISSING, PASSWORD_SHORT, PASSWORD_MISMATCH})
  {
  }

  /** A ten-space phone number is long enough but is refused as missing,
      because the blank test comes first. */
  lemma BlankPhoneRefusedFirst(name: string, email: string)
    requires !IsBlank(name) && !IsBlank(email) && Contains(email, "@") && Contains(email, ".")
    ensures FormError(Form(name, email, "          ", "secret", "secret")) == Some(PHONE_MISSING)
  {
    var phone := "          ";
    assert IsBlank(phone);
  }

  /** An accepted email holds at least the two characters '@' and '.'. */
  lemma {:induction false} AcceptedEmailShape(f: Form)
    requires FormError(f).None?
    ensures |f.email| >= 2
  {
    var i: nat :| i <= |f.email| && OccursAt("@", f.email, i);
    var j: nat :| j <= |f.email| && OccursAt(".", f.email, j);
    assert f.email[i] == '@' by { assert f.email[i..i + 1] == "@"; }
    assert f.email[j] == '.' by { assert f.email[j..j + 1] == "."; }
  }

  /** What the screen shows: an alert's title and message. */
  datatype Alert = Alert(title: string, message: string)

  const EMAIL_TAKEN := "An account with this email already exists. Please login instead."

  /** The greeting after a successful registration. */
  function WelcomeText(name: string): (r: string)
    ensures |r| > |name|
  {
    "Welcome to SmartShop, " + name + "! You can now login with your credentials."
  }

  /** The greeting names the new user. */
  lemma WelcomeNamesUser(name: string)
    ensures Contains(WelcomeText(name), name)
  {
    ContainsMiddle("Welcome to SmartShop, ", name, "! You can now login with your credentials.");
  }

  /** `handleRegister`: an invalid form shows its first error and nothing
      is stored; an email already registered is refused with an invitation
      to log in and nothing is stored; otherwise the data service registers
      the user, who is greeted by name. The password is handed to the data
      service, which does not keep it. */
  method HandleRegister(store: DataService, f: Form, userType: UserType, now: int)
    returns (alert: Alert, registered: Option<ClientUser>)
    modifies store
    ensures FormError(f).Some? ==>
      alert == Alert("Error", FormError(f).value) && registered.None?
      && store.users == old(store.users)
    ensures FormError(f).None? && old(store.CheckEmailExists(f.email)) ==>
      alert == Alert("Error", EMAIL_TAKEN) && registered.None?
      && store.users == old(store.users)
    ensures FormError(f).None? && !old(store.CheckEmailExists(f.email)) ==>
      && registered == Some(ClientUser(|old(store.users)| + 1, f.name, f.email, f.phone, userType, now))
      && store.users == old(store.users) + [registered.value]
      && alert == Alert("Registration Successful!", WelcomeText(f.name))
    ensures store.products == old(store.products) && store.credits == old(store.credits)
    ensures store.orders == old(store.orders)
    ensures old(store.UniqueEmails()) ==> store.UniqueEmails()
  {
    var error := FormError(f);
    if error.Some? {
      return Alert("Error", error.value), None;
    }
    var exists_ := store.CheckEmailExists(f.email);
    if exists_ {
      return Alert("Error", EMAIL_TAKEN), None;
    }
    var r := store.RegisterUser(f.name, f.email, f.phone, f.password, userType, now);
    match r {
      case Ok(user) =>
        alert := Alert("Registration Successful!", WelcomeText(user.name));
        registered := Some(user);
      case Err(message) =>
        alert := Alert("Registration Failed", message);
        registered := None;
    }
  }
}
