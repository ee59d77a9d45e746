/**
 * The login and sign-up page. Its form checks the fields before any call is made: an email of
 * the shape `x@y.z`, a password (of at least eight UTF-16 code units when signing up), and a first and
 * last name when signing up. A valid form is sent to the sign-in or sign-up service, whose
 * outcome is an input here, and the answer is reported in a notice.
 */
module Auth {
  import opened Wrappers
  import opened Text

  /**
   * `/\S+@\S+\.\S+/.test(s)`: somewhere in `s`, a non-blank character, an `@`, a non-empty run
   * of non-blank characters, a dot and a non-blank character.
   */
  predicate EmailLike(s: string) {
    exists at, dot | 0 <= at < |s| && 0 <= dot < |s| :: EmailAt(s, at, dot)
  }

  /** The match of the email shape with its `@` at `at` and its dot at `dot`. */
  predicate EmailAt(s: string, at: int, dot: int) {
    && 0 < at && at + 1 < dot && dot + 1 < |s|
    && s[at] == '@' && s[dot] == '.'
    && !IsSpace(s[at - 1]) && !IsSpace(s[dot + 1]) && NoSpace(s[at + 1..dot])
  }

  /** An email-like text holds an `@` and a dot. */
  lemma EmailLikeHasAtAndDot(s: string)
    requires EmailLike(s)
    ensures '@' in s && '.' in s
  {
    var at, dot :| 0 <= at < |s| && 0 <= dot < |s| && EmailAt(s, at, dot);
    assert s[at] in s && s[dot] in s;
  }

  /** The shortest email-like text: one character on each side of the `@` and of the dot. */
  lemma ShortestEmail()
    ensures EmailLike("a@b.c")
    ensures forall t :: |t| < 5 ==> !EmailLike(t)
  {
    var e := "a@b.c";
    assert e[2..3] == "b";
    assert NoSpace(e[2..3]);
    assert e[1] == '@' && e[3] == '.' && !IsSpace(e[0]) && !IsSpace(e[4]);
    assert EmailAt(e, 1, 3);
  }

  /** The fields an error can be reported on. */
  datatype ErrorKey = EmailKey | PasswordKey | PrenomKey | NomKey

  function EmailError(email: string): (r: Option<string>)
    ensures r.Some? <==> email == "" || !EmailLike(email)
  {
    if email == "" then Some("L'email est requis")
    else if !EmailLike(email) then Some("Email invalide")
    else None
  }

  /** The password is required in both modes; only sign-up asks for eight UTF-16 code units. */
  function PasswordError(password: string, isLogin: bool): (r: Option<string>)
    ensures r.Some? <==> password == "" || (!isLogin && Utf16Length(password) < 8)
  {
    if password == "" then Some("Le mot de passe est requis")
    else if !isLogin && Utf16Length(password) < 8 then Some("Minimum 8 caractères")
    else None
  }

  /** The form's fields. */
  datatype Form = Form(isLogin: bool, email: string, password: string, prenom: string, nom: string)

  /** The errors the form shows: one entry per field in error, and no other. */
  function FormErrors(f: Form): (r: map<ErrorKey, string>)
    ensures EmailKey in r <==> EmailError(f.email).Some?
    ensures PasswordKey in r <==> PasswordError(f.password, f.isLogin).Some?
    ensures PrenomKey in r <==> !f.isLogin && f.prenom == ""
    ensures NomKey in r <==> !f.isLogin && f.nom == ""
  {
    var e := if EmailError(f.email).Some? then map[EmailKey := EmailError(f.email).value] else map[];
    var p := if PasswordError(f.password, f.isLogin).Some? then
      e[PasswordKey := PasswordError(f.password, f.isLogin).value] else e;
    var n := if !f.isLogin && f.prenom == "" then p[PrenomKey := "Le prénom est requis"] else p;
    if !f.isLogin && f.nom == "" then n[NomKey := "Le nom est requis"] else n
  }

  /** A form is valid when it shows no error. */
  predicate Valid(f: Form) {
    forall k :: k !in FormErrors(f)
  }

  /** A login form is valid exactly when its email is email-like and its password non-empty. */
  lemma ValidLogin(f: Form)
    requires f.isLogin
    ensures Valid(f) <==> EmailLike(f.email) && f.password != ""
  {
    if Valid(f) {
      assert EmailKey !in FormErrors(f) && PasswordKey !in FormErrors(f);
    }
  }

  /**
   * A sign-up form is valid exactly when its email is email-like, its password has at least
   * eight UTF-16 code units and both names are given.
   */
  lemma ValidSignUp(f: Form)
    requires !f.isLogin
    ensures Valid(f) <==> EmailLike(f.email) && Utf16Length(f.password) >= 8 && f.prenom != "" && f.nom != ""
  {
    var r := FormErrors(f);
    if Valid(f) {
      assert EmailKey !in r && PasswordKey !in r && PrenomKey !in r && NomKey !in r;
    }
  }

  /** What the sign-in or sign-up service answered. */
  datatype AuthOutcome = Succeeded | Failed(message: string) | Threw

  /** The notice shown after the call. */
  datatype Notice = SuccessNotice(text: string) | ErrorNotice(text: string)

  /** The call a valid form makes. */
  datatype AuthCall =
    | SignIn(email: string, password: string)
    | SignUp(email: string, password: string, prenom: string, nom: string)

  /** The notice for an outcome: two known failures are translated, others shown as they come. */
  function NoticeFor(isLogin: bool, outcome: AuthOutcome): (n: Notice)
    ensures n.SuccessNotice? <==> outcome.Succeeded?
    ensures outcome.Failed? && isLogin && Contains(outcome.message, "Invalid login credentials") ==>
      n == ErrorNotice("Email ou mot de passe incorrect")
    ensures outcome.Failed? && !isLogin && Contains(outcome.message, "already registered") ==>
      n == ErrorNotice("Cet email est déjà utilisé")
    ensures outcome.Failed? && !Contains(outcome.message, if isLogin then "Invalid login credentials"
                                                          else "already registered") ==>
      n == ErrorNotice(outcome.message)
    ensures outcome.Threw? ==> n == ErrorNotice("Une erreur est survenue")
  {
    match outcome
    case Succeeded =>
      if isLogin then SuccessNotice("Connexion réussie !") else SuccessNotice("Compte créé avec succès !")
    case Failed(message) =>
      if isLogin then
        if Contains(message, "Invalid login credentials") then ErrorNotice("Email ou mot de passe incorrect")
        else ErrorNotice(message)
      else if Contains(message, "already registered") then ErrorNotice("Cet email est déjà utilisé")
      else ErrorNotice(message)
    case Threw => ErrorNotice("Une erreur est survenue")
  }

  /** The page's state. */
  class AuthPage {
    var form: Form
    var isLoading: bool
    var errors: map<ErrorKey, string>

    constructor()
      ensures form == Form(true, "", "", "", "") && !isLoading && errors == map[]
    {
      form := Form(true, "", "", "", "");
      isLoading := false;
      errors := map[];
    }

    /** `validate`: the errors are collected check by check, then replace the shown ones. */
    method Validate() returns (ok: bool)
      modifies this
      ensures errors == FormErrors(form) && (ok <==> Valid(form))
      ensures form == old(form) && isLoading == old(isLoading)
    {
      var newErrors: map<ErrorKey, string> := map[];
      if form.email == "" {
        newErrors := newErrors[EmailKey := "L'email est requis"];
      } else if !EmailLike(form.email) {
        newErrors := newErrors[EmailKey := "Email invalide"];
      }
      if form.password == "" {
        newErrors := newErrors[PasswordKey := "Le mot de passe est requis"];
      } else if !form.isLogin && Utf16Length(form.password) < 8 {
        newErrors := newErrors[PasswordKey := "Minimum 8 caractères"];
      }
      if !form.isLogin {
        if form.prenom == "" {
          newErrors := newErrors[PrenomKey := "Le prénom est requis"];
        }
        if form.nom == "" {
          newErrors := newErrors[NomKey := "Le nom est requis"];
        }
      }
      errors := newErrors;
      ok := newErrors == map[];
    }

    /**
     * `handleSubmit`: an invalid form makes no call and leaves the loading flag alone; a valid
     * one makes the call for its mode with the loading flag up, reports the outcome and lowers
     * the flag again. `loadingDuringCall` is the flag while the call runs.
     */
    method HandleSubmit(outcome: AuthOutcome)
      returns (call: Option<AuthCall>, notice: Option<Notice>, loadingDuringCall: bool)
      modifies this
      ensures form == old(form) && errors == FormErrors(form)
      ensures !Valid(form) ==> call == None && notice == None && isLoading == old(isLoading)
      ensures Valid(form) ==>
        && call == Some(if form.isLogin then SignIn(form.email, form.password)
                        else SignUp(form.email, form.password, form.prenom, form.nom))
        && notice == Some(NoticeFor(form.isLogin, outcome))
        && loadingDuringCall && !isLoading
    {
      var ok := Validate();
      if !ok {
        return None, None, false;
      }
      isLoading := true;
      if form.isLogin {
        call := Some(SignIn(form.email, form.password));
      } else {
        call := Some(SignUp(form.email, form.password, form.prenom, form.nom));
      }
      loadingDuringCall := isLoading;
      notice := Some(NoticeFor(form.isLogin, outcome));
      isLoading := false;
    }
  }
}
