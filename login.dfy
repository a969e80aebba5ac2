/**
 * The login page: two independent forms, one for citizens and one for officers, each with an
 * email, a password, an error line and a loading flag, and the same submit rule.
 */
module Login {
  import opened Text

  /** The error line of a form. */
  datatype LoginError = NoError | FillAllFields | InvalidEmail {
    function Text(): string {
      match this
      case NoError => ""
      case FillAllFields => "Please fill in all fields"
      case InvalidEmail => "Please enter a valid email"
    }
  }

  /** `s.includes("@")` holds exactly when some character is "@". */
  lemma ContainsAt(s: string)
    ensures Contains(s, "@") <==> '@' in s
  {
    ContainsIffOccurs(s, "@");
    if '@' in s {
      var i :| 0 <= i < |s| && s[i] == '@';
      assert s[i..i + 1] == "@";
      assert OccursAt(s, "@", i);
    }
    if Contains(s, "@") {
      var i :| OccursAt(s, "@", i);
      assert s[i] == s[i..i + 1][0];
    }
  }

  /**
   * The submit rule: an empty email or password is reported first, whatever the email looks
   * like; otherwise an email without "@" is refused; otherwise the login goes ahead.
   */
  function LoginVerdict(email: string, password: string): (r: LoginError)
    ensures r == NoError <==> email != "" && password != "" && '@' in email
    ensures r == FillAllFields <==> email == "" || password == ""
  {
    ContainsAt(email);
    if email == "" || password == "" then FillAllFields
    else if !Contains(email, "@") then InvalidEmail
    else NoError
  }

  class LoginForm {
    var email: string
    var password: string
    var error: LoginError
    var loading: bool

    constructor()
      ensures email == "" && password == "" && error == NoError && !loading
    {
      email := "";
      password := "";
      error := NoError;
      loading := false;
    }

    /** The login handler: clear the error, then report the first failing check or start loading. */
    method Submit()
      modifies this`error, this`loading
      ensures error == LoginVerdict(email, password)
      ensures loading == (error == NoError || old(loading))
    {
      error := NoError;
      if email == "" || password == "" {
        error := FillAllFields;
        return;
      }
      ContainsAt(email);
      if !Contains(email, "@") {
        error := InvalidEmail;
        return;
      }
      loading := true;
    }

    /** Typing in the email box clears a showing error. */
    method SetEmail(value: string)
      modifies this`email, this`error
      ensures email == value && error == NoError
    {
      email := value;
      if error.Text() != "" {
        error := NoError;
      }
    }

    /** Typing in the password box clears a showing error. */
    method SetPassword(value: string)
      modifies this`password, this`error
      ensures password == value && error == NoError
    {
      password := value;
      if error.Text() != "" {
        error := NoError;
      }
    }
  }

  class LoginPage {
    const citizen: LoginForm
    const officer: LoginForm

    constructor()
      ensures fresh(citizen) && fresh(officer) && citizen != officer
      ensures citizen.error == NoError && officer.error == NoError && !citizen.loading && !officer.loading
    {
      citizen := new LoginForm();
      officer := new LoginForm();
    }

    /** `handleCitizenLogin`: the officer form is left exactly as it was. */
    method HandleCitizenLogin()
      requires citizen != officer
      modifies citizen`error, citizen`loading
      ensures citizen.error == LoginVerdict(citizen.email, citizen.password)
      ensures citizen.loading == (citizen.error == NoError || old(citizen.loading))
      ensures officer.error == old(officer.error) && officer.loading == old(officer.loading)
    {
      citizen.Submit();
    }

    /** `handleOfficerLogin`: the same rule on the officer form alone. */
    method HandleOfficerLogin()
      requires citizen != officer
      modifies officer`error, officer`loading
      ensures officer.error == LoginVerdict(officer.email, officer.password)
      ensures officer.loading == (officer.error == NoError || old(officer.loading))
      ensures citizen.error == old(citizen.error) && citizen.loading == old(citizen.loading)
    {
      officer.Submit();
    }
  }
}
