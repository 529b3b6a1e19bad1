/** The sign-in screen: one-time registration of the device's profile (phone and
    password checks, a role-dependent profile) and password login against the stored
    profile. The browser's stored profile is the field `storedProfile`. */
module Login {
  import opened Types
  import opened Text
  import opened AppState

  const PhoneError: string := "Please enter a valid 10-digit phone number"
  const PasswordError: string := "Password must be at least 4 characters"
  const WrongPasswordError: string := "Incorrect password. Please try again."

  /** The phone field's `value.replace(/\D/g, '').slice(0, 10)`. */
  function SanitizePhone(raw: string): (r: string)
    ensures AllDigits(r) && |r| <= 10
    ensures r <= OnlyDigits(raw)
    ensures |r| == if |OnlyDigits(raw)| < 10 then |OnlyDigits(raw)| else 10
  {
    Take(OnlyDigits(raw), 10)
  }

  /** Sanitising what the field already holds changes nothing. */
  lemma SanitizePhoneIdempotent(raw: string)
    ensures SanitizePhone(SanitizePhone(raw)) == SanitizePhone(raw)
  {
  }

  /** The first failing check of `handleRegister`, phone before password; both lengths
      are JavaScript's `length`, in UTF-16 code units. */
  function RegistrationError(phone: string, password: string): (err: Option<string>)
    ensures err.None? <==> Utf16Length(phone) == 10 && Utf16Length(password) >= 4
    ensures Utf16Length(phone) != 10 ==> err == Some(PhoneError)
    ensures Utf16Length(phone) == 10 && Utf16Length(password) < 4 ==> err == Some(PasswordError)
  {
    if Utf16Length(phone) != 10 then Some(PhoneError)
    else if Utf16Length(password) < 4 then Some(PasswordError)
    else None
  }

  /** A sanitised phone passes its check exactly when ten digits were typed, and a password
      of two characters outside the Basic Multilingual Plane is four code units long, so
      it passes the length check. */
  lemma RegistrationLengths(raw: string)
    ensures Utf16Length(SanitizePhone(raw)) == 10 <==> |OnlyDigits(raw)| >= 10
    ensures RegistrationError("9876543210", "\U{1F600}\U{1F600}") == None
  {
    var p := SanitizePhone(raw);
    assert forall i :: 0 <= i < |p| ==> p[i] as int < 0x10000 by {
      forall i | 0 <= i < |p| ensures p[i] as int < 0x10000 {
        assert IsDigit(p[i]);
      }
    }
    var pw := "\U{1F600}\U{1F600}";
    assert Utf16Length(pw[1..][1..]) == 0;
    assert Utf16Length("9876543210") == 10;
  }

  /** The `newUser` profile built on registration. A manager profile is a fixed identity
      whatever name was typed; a salesman profile keeps the typed name. */
  function NewProfile(role: Role, name: string, phone: string, email: string, password: string,
                      today: string): (u: User)
    ensures u.role == role && u.phone == phone && u.email == email && u.password == Some(password)
    ensures u.points == 0 && u.pf == 1800.0 && u.assignedTasks == Some([]) && u.joiningDate == today
    ensures role == Manager ==>
      u.id == "M001" && u.employeeId == "ELD-MGR-001" && u.name == "Kaushik Mondal" &&
      u.salary == 85000.0 && u.department == "Field Management"
    ensures role == Salesman ==>
      u.id == "S101" && u.employeeId == "ELD-SLS-101" && u.name == name &&
      u.salary == 35000.0 && u.department == "Pharmaceutical Sales"
  {
    var manager := role == Manager;
    User(
      if manager then "M001" else "S101",
      if manager then "ELD-MGR-001" else "ELD-SLS-101",
      if manager then "Kaushik Mondal" else name,
      phone, email, role, 0,
      if manager then 85000.0 else 35000.0,
      1800.0,
      if manager then "Field Management" else "Pharmaceutical Sales",
      today, "O+", Some(password), None, Some([]), None, None, None)
  }

  /** With the starting roster, a newly registered salesman signs in as the roster's S101
      record (its name, not the typed one), while a manager signs in as the new profile. */
  lemma RegisteredSessionUser(name: string, phone: string, email: string, password: string, today: string)
    ensures ResolveLogin(DefaultStaff(), NewProfile(Salesman, name, phone, email, password, today)) ==
      DefaultStaff()[0]
    ensures ResolveLogin(DefaultStaff(), NewProfile(Manager, name, phone, email, password, today)) ==
      NewProfile(Manager, name, phone, email, password, today)
  {
    var staff := DefaultStaff();
    assert staff[0].id == "S101";
    assert staff[1].id == "S102";
    assert FindById(staff, "S101") == Some(staff[0]);
    assert "M001" != "S101" && "M001" != "S102";
  }

  class LoginScreen {
    const store: AppStore
    var storedProfile: Option<User>
    var isRegistered: bool
    var role: Role
    var name: string
    var phone: string
    var email: string
    var password: string
    var loginPassword: string
    var error: string

    /** Mounting the screen: the login form is shown iff a profile is stored, and the role
        toggle starts at the stored profile's role. */
    constructor (store: AppStore, saved: Option<User>)
      ensures this.store == store && storedProfile == saved
      ensures isRegistered <==> saved.Some?
      ensures role == if saved.Some? then saved.value.role else Salesman
      ensures name == "" && phone == "" && email == "" && password == "" && loginPassword == "" && error == ""
    {
      this.store := store;
      storedProfile := saved;
      isRegistered := saved.Some?;
      role := if saved.Some? then saved.value.role else Salesman;
      name, phone, email, password, loginPassword, error := "", "", "", "", "", "";
    }

    method SetRole(r: Role)
      modifies this`role
      ensures role == r
    {
      role := r;
    }

    method SetName(s: string)
      modifies this`name
      ensures name == s
    {
      name := s;
    }

    /** Typing in the phone field keeps at most ten digits. */
    method SetPhone(raw: string)
      modifies this`phone
      ensures phone == SanitizePhone(raw)
    {
      phone := SanitizePhone(raw);
    }

    method SetEmail(s: string)
      modifies this`email
      ensures email == s
    {
      email := s;
    }

    method SetPassword(s: string)
      modifies this`password
      ensures password == s
    {
      password := s;
    }

    method SetLoginPassword(s: string)
      modifies this`loginPassword
      ensures loginPassword == s
    {
      loginPassword := s;
    }

    /** `handleRegister`: a failed check sets its message and stores nothing; otherwise the
        new profile is stored and exactly that record is handed to the app's login. */
    method HandleRegister(today: string)
      modifies this`error, this`storedProfile, store`user
      ensures RegistrationError(phone, password).Some? ==>
        error == RegistrationError(phone, password).value &&
        storedProfile == old(storedProfile) && store.user == old(store.user)
      ensures RegistrationError(phone, password).None? ==>
        var profile := NewProfile(role, name, phone, email, password, today);
        storedProfile == Some(profile) && error == old(error) &&
        store.user == Some(ResolveLogin(store.staffList, profile))
    {
      var err := RegistrationError(phone, password);
      if err.Some? {
        error := err.value;
        return;
      }
      var newUser := NewProfile(role, name, phone, email, password, today);
      storedProfile := Some(newUser);
      store.HandleLogin(newUser);
    }

    /** `handleLogin`: with no stored profile nothing happens; otherwise the stored profile
        signs in iff its password equals the typed one, and a mismatch sets the error. */
    method HandleLogin()
      modifies this`error, store`user
      ensures storedProfile.None? ==> error == old(error) && store.user == old(store.user)
      ensures storedProfile.Some? && storedProfile.value.password == Some(loginPassword) ==>
        store.user == Some(ResolveLogin(store.staffList, storedProfile.value)) && error == old(error)
      ensures storedProfile.Some? && storedProfile.value.password != Some(loginPassword) ==>
        store.user == old(store.user) && error == WrongPasswordError
    {
      if storedProfile.Some? {
        var saved := storedProfile.value;
        if saved.password == Some(loginPassword) {
          store.HandleLogin(saved);
        } else {
          error := WrongPasswordError;
        }
      }
    }

    /** "Switch Account / Register New": forgets the stored profile and shows registration. */
    method SwitchAccount()
      modifies this`storedProfile, this`isRegistered
      ensures storedProfile == None && !isRegistered
    {
      storedProfile := None;
      isRegistered := false;
    }
  }
}
