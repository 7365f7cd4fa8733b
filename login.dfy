/** The sign-in screen of src/components/Login.tsx: the guest form (mobile
    sanitising and validation, the guest user record), the administrator
    password check, and the resets when either modal opens. Google sign-in
    is a network flow and is not modelled. */
module Login {
  import opened Types
  import opened Text

  /** The mobile field's `onChange`: `value.replace(/\D/g, '').slice(0, 10)`. */
  function SanitizeMobile(value: string): (r: string)
    ensures AllDigits(r) && |r| <= 10
    ensures r <= Digits(value)
    ensures |r| == if |Digits(value)| < 10 then |Digits(value)| else 10
  {
    var d := Digits(value);
    if |d| <= 10 then d else d[..10]
  }

  /** Sanitising a stored value again changes nothing. */
  lemma SanitizeMobileIdempotent(value: string)
    ensures SanitizeMobile(SanitizeMobile(value)) == SanitizeMobile(value)
  {
  }

  /** The guest form's test: non-empty, exactly 10 characters, all digits
      (`/^\d+$/`). */
  predicate ValidMobile(m: string) {
    m != [] && |m| == 10 && AllDigits(m)
  }

  /** A sanitised field is valid exactly when the typed text held at least
      ten digits, and a valid number survives sanitising unchanged. */
  lemma SanitizedValidity(value: string)
    ensures ValidMobile(SanitizeMobile(value)) <==> |Digits(value)| >= 10
    ensures ValidMobile(value) ==> SanitizeMobile(value) == value
  {
  }

  /** `s.split(' ')[0]`: the text before the first space. */
  function FirstWord(s: string): (r: string)
    ensures r <= s && ' ' !in r
    ensures r == s || s[|r|] == ' '
  {
    if s == [] || s[0] == ' ' then [] else [s[0]] + FirstWord(s[1..])
  }

  /** The record handed to `onLogin`. */
  datatype Account = Account(
    name: string,
    givenName: string,
    email: string,
    picture: string,
    mobile: Option<string>,
    role: Option<string>)

  const GuestDisplayName := "Guest User"
  const GuestGivenName := "Guest"
  const GuestEmail := "guest@medipulse.ai"
  const AvatarBase := "https://api.dicebear.com/7.x/avataaars/svg?seed="
  const AdminPassword := "admin@123"
  const MobileError := "Please enter a valid 10-digit mobile number."
  const PasswordError := "Incorrect password. Please try again."

  /** The guest user built on acceptance. */
  function GuestUser(guestName: string, mobile: string): Account {
    Account(
      if guestName == [] then GuestDisplayName else guestName,
      if guestName == [] then GuestGivenName else FirstWord(guestName),
      GuestEmail,
      AvatarBase + (if guestName == [] then GuestGivenName else guestName),
      Some(mobile),
      None)
  }

  /** The guest record: the typed name or "Guest User", a given name that is
      the name's first word (or "Guest"), the fixed guest e-mail, an avatar
      seeded by the name, and the validated mobile; no role. */
  lemma GuestUserFields(guestName: string, mobile: string)
    ensures var u := GuestUser(guestName, mobile);
      && u.name != [] && u.email == GuestEmail && u.mobile == Some(mobile) && u.role.None?
      && (guestName == [] ==> u.name == GuestDisplayName && u.givenName == GuestGivenName)
      && (guestName != [] ==> u.name == guestName && u.givenName == FirstWord(guestName))
      && u.picture == AvatarBase + (if guestName == [] then GuestGivenName else guestName)
  {
  }

  /** The fixed administrator record. */
  const AdminUser := Account("Administrator", "Admin", "admin@medipulse.ai", "", None, Some("admin"))

  class LoginScreen {
    var isLoading: bool
    var error: Option<string>
    var isAdminModalOpen: bool
    var inputPassword: string
    var isGuestModalOpen: bool
    var guestMobile: string
    var guestName: string
    /** Users whose 800 ms login timer is running, in the order set. */
    var pending: seq<Account>
    /** Users passed to `onLogin`, in order. */
    var loggedIn: seq<Account>

    /** The stored mobile only ever holds what the sanitiser lets through. */
    ghost predicate Valid()
      reads this
    {
      AllDigits(guestMobile) && |guestMobile| <= 10
    }

    constructor ()
      ensures Valid()
      ensures !isLoading && error.None? && !isAdminModalOpen && !isGuestModalOpen
      ensures inputPassword == [] && guestMobile == [] && guestName == []
      ensures pending == [] && loggedIn == []
    {
      isLoading, error := false, None;
      isAdminModalOpen, inputPassword := false, [];
      isGuestModalOpen, guestMobile, guestName := false, [], [];
      pending, loggedIn := [], [];
    }

    /** `handleGuestLoginClick`. */
    method GuestLoginClick()
      modifies this`guestMobile, this`guestName, this`error, this`isGuestModalOpen
      ensures Valid()
      ensures guestMobile == [] && guestName == [] && error.None? && isGuestModalOpen
    {
      guestMobile := [];
      guestName := [];
      error := None;
      isGuestModalOpen := true;
    }

    /** The mobile field's `onChange`. */
    method MobileChange(value: string)
      modifies this`guestMobile, this`error
      ensures Valid()
      ensures guestMobile == SanitizeMobile(value) && error.None?
    {
      guestMobile := SanitizeMobile(value);
      error := None;
    }

    /** The name field's `onChange`. */
    method NameChange(value: string)
      modifies this`guestName
      ensures guestName == value
    {
      guestName := value;
    }

    /** The guest modal's close button. */
    method CloseGuestModal()
      modifies this`isGuestModalOpen
      ensures !isGuestModalOpen
    {
      isGuestModalOpen := false;
    }

    /** `submitGuestLogin`: an invalid mobile sets the error and keeps the
        modal open; a valid one closes it, shows the loader and starts the
        timer that will log the guest in. */
    method SubmitGuest()
      modifies this`error, this`isGuestModalOpen, this`isLoading, this`pending
      ensures !ValidMobile(guestMobile) ==>
        error == Some(MobileError) && isGuestModalOpen == old(isGuestModalOpen)
        && isLoading == old(isLoading) && pending == old(pending)
      ensures ValidMobile(guestMobile) ==>
        error == old(error) && !isGuestModalOpen && isLoading
        && pending == old(pending) + [GuestUser(guestName, guestMobile)]
    {
      if guestMobile == [] || |guestMobile| != 10 || !AllDigits(guestMobile) {
        error := Some(MobileError);
        return;
      }
      isGuestModalOpen := false;
      isLoading := true;
      pending := pending + [GuestUser(guestName, guestMobile)];
    }

    /** `handleAdminClick`. */
    method AdminClick()
      modifies this`inputPassword, this`error, this`isAdminModalOpen
      ensures inputPassword == [] && error.None? && isAdminModalOpen
    {
      inputPassword := [];
      error := None;
      isAdminModalOpen := true;
    }

    /** The password field's `onChange`. */
    method PasswordChange(value: string)
      modifies this`inputPassword, this`error
      ensures inputPassword == value && error.None?
    {
      inputPassword := value;
      error := None;
    }

    /** The admin modal's close button. */
    method CloseAdminModal()
      modifies this`isAdminModalOpen
      ensures !isAdminModalOpen
    {
      isAdminModalOpen := false;
    }

    /** `verifyAdminLogin`: only the fixed password starts the administrator
        login; anything else sets the error. */
    method VerifyAdmin()
      modifies this`error, this`isAdminModalOpen, this`isLoading, this`pending
      ensures inputPassword == AdminPassword ==>
        !isAdminModalOpen && isLoading && error == old(error) && pending == old(pending) + [AdminUser]
      ensures inputPassword != AdminPassword ==>
        error == Some(PasswordError) && isAdminModalOpen == old(isAdminModalOpen)
        && isLoading == old(isLoading) && pending == old(pending)
    {
      if inputPassword == AdminPassword {
        isAdminModalOpen := false;
        isLoading := true;
        pending := pending + [AdminUser];
      } else {
        error := Some(PasswordError);
      }
    }

    /** The earliest login timer fires and calls `onLogin`. */
    method LoginTimerFires()
      requires pending != []
      modifies this`pending, this`loggedIn
      ensures loggedIn == old(loggedIn) + [old(pending)[0]] && pending == old(pending)[1..]
    {
      loggedIn := loggedIn + [pending[0]];
      pending := pending[1..];
    }
  }
}
