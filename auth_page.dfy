/** The sign-in / sign-up page. Its handlers only validate locally and
    then simulate a server round trip with a 1.5 s timer; the timers are
    modelled as a queue of pending callbacks that fire in the order they
    were scheduled. */
module AuthPage {
  datatype Toast = Toast(title: string, description: string, destructive: bool)

  datatype SignupData = SignupData(
    firstName: string, lastName: string, email: string, phone: string,
    password: string, confirmPassword: string)

  datatype LoginData = LoginData(email: string, password: string)

  /** A callback waiting on its timer. */
  datatype Pending = SignupDone | LoginDone | ResetDone

  const MinSignupPassword := 6

  datatype SignupCheck = PasswordsDiffer | PasswordTooShort | SignupAccepted

  /** `handleSignup`'s checks: a mismatch is reported before the length. */
  function CheckSignup(data: SignupData): (c: SignupCheck)
    ensures c == SignupAccepted <==> data.password == data.confirmPassword && |data.password| >= MinSignupPassword
    ensures c == PasswordsDiffer <==> data.password != data.confirmPassword
    ensures c == PasswordTooShort ==> data.password == data.confirmPassword
  {
    if data.password != data.confirmPassword then PasswordsDiffer
    else if |data.password| < MinSignupPassword then PasswordTooShort
    else SignupAccepted
  }

  const MismatchToast := Toast("Erreur", "Les mots de passe ne correspondent pas", true)
  const TooShortToast := Toast("Erreur", "Le mot de passe doit contenir au moins 6 caractères", true)
  const CreatedToast := Toast("Compte créé !", "Bienvenue chez Green Afreeca", false)
  const LoggedInToast := Toast("Connexion réussie !", "Bon retour parmi nous", false)
  const MissingEmailToast := Toast("Erreur", "Veuillez entrer votre adresse email", true)
  const ResetSentToast := Toast("Email envoyé !", "Vérifiez votre boîte de réception", false)

  /** What a fired callback does to (isLoading, resetSent) and the toast it
      shows. */
  function Completion(p: Pending, resetSent: bool): (r: (bool, bool, Toast))
    ensures !r.0
    ensures r.1 == (p == ResetDone || resetSent)
  {
    match p
    case SignupDone => (false, resetSent, CreatedToast)
    case LoginDone => (false, resetSent, LoggedInToast)
    case ResetDone => (false, true, ResetSentToast)
  }

  class AuthPage {
    var isLoading: bool
    var forgotPasswordOpen: bool
    var resetEmail: string
    var resetSent: bool
    var signupData: SignupData
    var loginData: LoginData
    var pending: seq<Pending>
    var toasts: seq<Toast>

    /** Loading is only on while some callback is still pending. It can be
        off with callbacks pending: the first one to fire clears it. */
    ghost predicate Valid()
      reads this
    {
      isLoading ==> pending != []
    }

    constructor ()
      ensures Valid() && !isLoading && !forgotPasswordOpen && resetEmail == "" && !resetSent
      ensures signupData == SignupData("", "", "", "", "", "") && loginData == LoginData("", "")
      ensures pending == [] && toasts == []
    {
      isLoading, forgotPasswordOpen, resetEmail, resetSent := false, false, "", false;
      signupData := SignupData("", "", "", "", "", "");
      loginData := LoginData("", "");
      pending, toasts := [], [];
    }

    method EditSignup(data: SignupData)
      modifies this
      ensures signupData == data
      ensures isLoading == old(isLoading) && forgotPasswordOpen == old(forgotPasswordOpen)
      ensures resetEmail == old(resetEmail) && resetSent == old(resetSent) && loginData == old(loginData)
      ensures pending == old(pending) && toasts == old(toasts)
    {
      signupData := data;
    }

    method EditLogin(data: LoginData)
      modifies this
      ensures loginData == data
      ensures isLoading == old(isLoading) && forgotPasswordOpen == old(forgotPasswordOpen)
      ensures resetEmail == old(resetEmail) && resetSent == old(resetSent) && signupData == old(signupData)
      ensures pending == old(pending) && toasts == old(toasts)
    {
      loginData := data;
    }

    method EditResetEmail(email: string)
      modifies this
      ensures resetEmail == email
      ensures isLoading == old(isLoading) && forgotPasswordOpen == old(forgotPasswordOpen)
      ensures resetSent == old(resetSent) && signupData == old(signupData) && loginData == old(loginData)
      ensures pending == old(pending) && toasts == old(toasts)
    {
      resetEmail := email;
    }

    /** The dialog's `onOpenChange` and the "forgot password" link. */
    method SetForgotPasswordOpen(open: bool)
      modifies this
      ensures forgotPasswordOpen == open
      ensures isLoading == old(isLoading) && resetEmail == old(resetEmail) && resetSent == old(resetSent)
      ensures signupData == old(signupData) && loginData == old(loginData)
      ensures pending == old(pending) && toasts == old(toasts)
    {
      forgotPasswordOpen := open;
    }

    /** A rejected signup shows an error and starts nothing; an accepted one
        turns loading on and schedules the success callback. */
    method HandleSignup() returns (check: SignupCheck)
      requires Valid()
      modifies this
      ensures Valid()
      ensures check == CheckSignup(signupData)
      ensures check == PasswordsDiffer ==> toasts == old(toasts) + [MismatchToast] && pending == old(pending) && isLoading == old(isLoading)
      ensures check == PasswordTooShort ==> toasts == old(toasts) + [TooShortToast] && pending == old(pending) && isLoading == old(isLoading)
      ensures check == SignupAccepted ==> isLoading && pending == old(pending) + [SignupDone] && toasts == old(toasts)
      ensures forgotPasswordOpen == old(forgotPasswordOpen) && resetEmail == old(resetEmail) && resetSent == old(resetSent)
      ensures signupData == old(signupData) && loginData == old(loginData)
    {
      check := CheckSignup(signupData);
      if check == PasswordsDiffer {
        toasts := toasts + [MismatchToast];
        return;
      }
      if check == PasswordTooShort {
        toasts := toasts + [TooShortToast];
        return;
      }
      isLoading := true;
      pending := pending + [SignupDone];
    }

    /** Login does no checking of its own: it always starts the simulated
        round trip. */
    method HandleLogin()
      requires Valid()
      modifies this
      ensures Valid() && isLoading
      ensures pending == old(pending) + [LoginDone] && toasts == old(toasts)
      ensures forgotPasswordOpen == old(forgotPasswordOpen) && resetEmail == old(resetEmail) && resetSent == old(resetSent)
      ensures signupData == old(signupData) && loginData == old(loginData)
    {
      isLoading := true;
      pending := pending + [LoginDone];
    }

    /** An empty reset address is refused with an error and no loading. */
    method HandleForgotPassword() returns (accepted: bool)
      requires Valid()
      modifies this
      ensures Valid()
      ensures accepted <==> resetEmail != ""
      ensures !accepted ==> toasts == old(toasts) + [MissingEmailToast] && pending == old(pending) && isLoading == old(isLoading)
      ensures accepted ==> isLoading && pending == old(pending) + [ResetDone] && toasts == old(toasts)
      ensures forgotPasswordOpen == old(forgotPasswordOpen) && resetEmail == old(resetEmail) && resetSent == old(resetSent)
      ensures signupData == old(signupData) && loginData == old(loginData)
    {
      if resetEmail == "" {
        toasts := toasts + [MissingEmailToast];
        return false;
      }
      isLoading := true;
      pending := pending + [ResetDone];
      return true;
    }

    /** `closeForgotPassword`: the dialog closes and forgets the address and
        whether a link was sent. */
    method CloseForgotPassword()
      modifies this
      ensures !forgotPasswordOpen && resetEmail == "" && !resetSent
      ensures isLoading == old(isLoading) && signupData == old(signupData) && loginData == old(loginData)
      ensures pending == old(pending) && toasts == old(toasts)
    {
      forgotPasswordOpen := false;
      resetEmail := "";
      resetSent := false;
    }

    /** The oldest timer fires: its callback clears loading (even if other
        callbacks are still waiting) and shows its toast; the reset callback
        also marks the link as sent. */
    method FireTimer() returns (fired: Pending)
      requires Valid() && pending != []
      modifies this
      ensures Valid() && !isLoading
      ensures fired == old(pending[0]) && pending == old(pending[1..])
      ensures |toasts| == |old(toasts)| + 1 && toasts[..|old(toasts)|] == old(toasts)
      ensures (isLoading, resetSent, toasts[|toasts| - 1]) == Completion(fired, old(resetSent))
      ensures forgotPasswordOpen == old(forgotPasswordOpen) && resetEmail == old(resetEmail)
      ensures signupData == old(signupData) && loginData == old(loginData)
    {
      fired := pending[0];
      pending := pending[1..];
      var (loading, sent, toast) := Completion(fired, resetSent);
      isLoading, resetSent := loading, sent;
      toasts := toasts + [toast];
    }
  }
}
