/**
 * The citizen registration wizard: three steps of fields, a validator per step that reports one
 * message per failing field, and the step counter that only moves forward past a clean step.
 */
module Register {
  import opened Text
  import opened Seqs

  // ---------------------------------------------------------------- field formats

  /** The regular expression class `[^\s@]`: neither whitespace nor "@". */
  predicate Plain(s: string) {
    forall i :: 0 <= i < |s| ==> s[i] != '@' && !IsWhitespace(s[i])
  }

  /**
   * `validateEmail`, the pattern `^[^\s@]+@[^\s@]+\.[^\s@]+$`: a non-empty local part, "@", a
   * non-empty domain name, ".", and a non-empty final label, none containing whitespace or "@".
   */
  predicate ValidEmail(s: string) {
    exists at, dot :: 0 < at && at + 1 < dot < |s| - 1 && s[at] == '@' && s[dot] == '.'
      && Plain(s[..at]) && Plain(s[at + 1..dot]) && Plain(s[dot + 1..])
  }

  /** The index of the first `c` in `s`, or |s| when there is none. */
  function IndexOf(s: string, c: char): (k: nat)
    ensures k <= |s| && (k < |s| ==> s[k] == c)
    ensures forall j :: 0 <= j < k ==> s[j] != c
  {
    if s == "" || s[0] == c then 0 else 1 + IndexOf(s[1..], c)
  }

  /**
   * The same test read the other way round: the first "@" is not the first character, no
   * character is whitespace and no later one is "@", and the part after the "@" has a "." that
   * is neither its first nor its last character.
   */
  predicate EmailByScan(s: string) {
    var at := IndexOf(s, '@');
    && 0 < at < |s|
    && (forall i :: 0 <= i < |s| ==> !IsWhitespace(s[i]))
    && (forall i :: at < i < |s| ==> s[i] != '@')
    && (exists dot :: at + 1 < dot < |s| - 1 && s[dot] == '.')
  }

  /** The pattern and the scan accept the same addresses: in particular an address has exactly
   *  one "@" and no whitespace. */
  lemma EmailPatternIsScan(s: string)
    ensures ValidEmail(s) <==> EmailByScan(s)
  {
    if ValidEmail(s) {
      PatternGivesScan(s);
    }
    if EmailByScan(s) {
      ScanGivesPattern(s);
    }
  }

  /** An address the pattern accepts passes the scan, its one "@" splitting the parts. */
  lemma PatternGivesScan(s: string)
    requires ValidEmail(s)
    ensures EmailByScan(s)
  {
    var at, dot :| 0 < at && at + 1 < dot < |s| - 1 && s[at] == '@' && s[dot] == '.'
      && Plain(s[..at]) && Plain(s[at + 1..dot]) && Plain(s[dot + 1..]);
    forall i | 0 <= i < |s| && i != at
      ensures s[i] != '@' && !IsWhitespace(s[i])
    {
      if i < at {
        assert s[i] == s[..at][i];
      } else if i < dot {
        assert s[i] == s[at + 1..dot][i - at - 1];
      } else if i > dot {
        assert s[i] == s[dot + 1..][i - dot - 1];
      }
    }
    assert IndexOf(s, '@') == at;
  }

  /** An address that passes the scan matches the pattern at its first "@" and any later ".". */
  lemma ScanGivesPattern(s: string)
    requires EmailByScan(s)
    ensures ValidEmail(s)
  {
    var at := IndexOf(s, '@');
    var dot :| at + 1 < dot < |s| - 1 && s[dot] == '.';
    assert Plain(s[..at]);
    assert Plain(s[at + 1..dot]);
    assert Plain(s[dot + 1..]);
  }

  /** `validatePhone`: exactly ten digits remain once every other character is removed. */
  predicate ValidPhone(s: string) {
    |Filter(s, IsDigit)| == 10
  }

  /** Formatting characters do not matter: inserting a non-digit anywhere keeps the verdict. */
  lemma PhoneIgnoresFormatting(a: string, b: string, c: char)
    requires !IsDigit(c)
    ensures ValidPhone(a + [c] + b) == ValidPhone(a + b)
  {
    FilterAppend(a + [c], b, IsDigit);
    FilterAppend(a, [c], IsDigit);
    FilterAppend(a, b, IsDigit);
    assert Filter([c], IsDigit) == [];
  }

  /** A valid phone number has at least ten characters. */
  lemma PhoneLength(s: string)
    requires ValidPhone(s)
    ensures |s| >= 10
  {
  }

  /** The pincode pattern `^\d{6}$`: six digits and nothing else, untrimmed. */
  predicate ValidPincode(s: string) {
    |s| == 6 && forall i :: 0 <= i < |s| ==> IsDigit(s[i])
  }

  // ---------------------------------------------------------------- step reports

  /** The keys of the form and of its error map: the ten text fields, and `terms` for the checkbox. */
  datatype FieldName =
    | FirstName | LastName | Email | Phone | Address | City | State | Pincode | Password | ConfirmPassword | Terms

  /** The messages the validators show, and `Cleared`, the empty string an edited field's error is set to. */
  datatype Message =
    | FirstNameRequired | LastNameRequired | EmailRequired | InvalidEmailFormat | PhoneRequired | InvalidPhoneNumber
    | AddressRequired | CityRequired | StateRequired | PincodeRequired | InvalidPincode
    | PasswordRequired | PasswordTooShort | ConfirmRequired | PasswordsDiffer | TermsRequired | Cleared
  {
    /** The text shown under the field. */
    function Text(): string {
      match this
      case FirstNameRequired => "First name is required"
      case LastNameRequired => "Last name is required"
      case EmailRequired => "Email is required"
      case InvalidEmailFormat => "Invalid email format"
      case PhoneRequired => "Phone is required"
      case InvalidPhoneNumber => "Invalid phone number"
      case AddressRequired => "Address is required"
      case CityRequired => "City is required"
      case StateRequired => "State is required"
      case PincodeRequired => "Pincode is required"
      case InvalidPincode => "Invalid pincode"
      case PasswordRequired => "Password is required"
      case PasswordTooShort => "Password must be at least 8 characters"
      case ConfirmRequired => "Please confirm your password"
      case PasswordsDiffer => "Passwords do not match"
      case TermsRequired => "You must agree to terms and conditions"
      case Cleared => ""
    }
  }

  /** `formData[field]`, or the empty string for a field that holds no text. */
  function Value(form: map<FieldName, string>, field: FieldName): string {
    if field in form then form[field] else ""
  }

  /** The error map reports `key` exactly when the check failed, with `message`. */
  predicate Reports(errors: map<FieldName, Message>, key: FieldName, failed: bool, message: Message) {
    (key in errors <==> failed) && (key in errors ==> errors[key] == message)
  }

  predicate Step1Ok(form: map<FieldName, string>) {
    var email := Value(form, Email);
    var phone := Value(form, Phone);
    !IsBlank(Value(form, FirstName)) && !IsBlank(Value(form, LastName))
    && !IsBlank(email) && ValidEmail(email) && !IsBlank(phone) && ValidPhone(phone)
  }

  /**
   * What `validateStep1` reports: a required name that is blank once trimmed, and for email and
   * phone either "required" when blank or a format error otherwise; the format is checked on the
   * untrimmed value.
   */
  predicate Step1Report(form: map<FieldName, string>, errors: map<FieldName, Message>) {
    var email := Value(form, Email);
    var phone := Value(form, Phone);
    && errors.Keys <= {FirstName, LastName, Email, Phone}
    && Reports(errors, FirstName, IsBlank(Value(form, FirstName)), FirstNameRequired)
    && Reports(errors, LastName, IsBlank(Value(form, LastName)), LastNameRequired)
    && Reports(errors, Email, IsBlank(email) || !ValidEmail(email),
               if IsBlank(email) then EmailRequired else InvalidEmailFormat)
    && Reports(errors, Phone, IsBlank(phone) || !ValidPhone(phone),
               if IsBlank(phone) then PhoneRequired else InvalidPhoneNumber)
  }

  predicate Step2Ok(form: map<FieldName, string>) {
    var pincode := Value(form, Pincode);
    !IsBlank(Value(form, Address)) && !IsBlank(Value(form, City)) && !IsBlank(Value(form, State))
    && !IsBlank(pincode) && ValidPincode(pincode)
  }

  predicate Step2Report(form: map<FieldName, string>, errors: map<FieldName, Message>) {
    var pincode := Value(form, Pincode);
    && errors.Keys <= {Address, City, State, Pincode}
    && Reports(errors, Address, IsBlank(Value(form, Address)), AddressRequired)
    && Reports(errors, City, IsBlank(Value(form, City)), CityRequired)
    && Reports(errors, State, IsBlank(Value(form, State)), StateRequired)
    && Reports(errors, Pincode, IsBlank(pincode) || !ValidPincode(pincode),
               if IsBlank(pincode) then PincodeRequired else InvalidPincode)
  }

  predicate Step3Ok(form: map<FieldName, string>, agreedToTerms: bool) {
    var password := Value(form, Password);
    var confirm := Value(form, ConfirmPassword);
    password != "" && |password| >= 8 && confirm != "" && password == confirm && agreedToTerms
  }

  /** `validateStep3`: the password checks are on the raw values, without trimming. */
  predicate Step3Report(form: map<FieldName, string>, agreedToTerms: bool, errors: map<FieldName, Message>) {
    var password := Value(form, Password);
    var confirm := Value(form, ConfirmPassword);
    && errors.Keys <= {Password, ConfirmPassword, Terms}
    && Reports(errors, Password, password == "" || |password| < 8,
               if password == "" then PasswordRequired else PasswordTooShort)
    && Reports(errors, ConfirmPassword, confirm == "" || password != confirm,
               if confirm == "" then ConfirmRequired else PasswordsDiffer)
    && Reports(errors, Terms, !agreedToTerms, TermsRequired)
  }

  /** A report over at most four keys is empty exactly when none of their checks failed. */
  lemma ReportEmptyIffClean(errors: map<FieldName, Message>, k1: FieldName, k2: FieldName, k3: FieldName, k4: FieldName,
                            f1: bool, f2: bool, f3: bool, f4: bool)
    requires errors.Keys <= {k1, k2, k3, k4}
    requires (k1 in errors <==> f1) && (k2 in errors <==> f2) && (k3 in errors <==> f3) && (k4 in errors <==> f4)
    ensures |errors| == 0 <==> !f1 && !f2 && !f3 && !f4
  {
    if |errors| != 0 {
      var k :| k in errors.Keys;
    }
  }

  /** The ten text fields of the wizard. */
  const WizardFields := {FirstName, LastName, Email, Phone, Address, City, State, Pincode, Password, ConfirmPassword}

  class RegisterWizard {
    var formData: map<FieldName, string>
    var errors: map<FieldName, Message>
    var agreedToTerms: bool
    var step: int
    var loading: bool

    /** The wizard is always on step 1, 2 or 3. */
    predicate Valid()
      reads this`step
    {
      1 <= step <= 3
    }

    constructor()
      ensures forall k :: k in WizardFields ==> k in formData && formData[k] == ""
      ensures errors == map[] && !agreedToTerms && step == 1 && !loading
      ensures Valid()
    {
      formData := map[FirstName := "", LastName := "", Email := "", Phone := "", Address := "",
                      City := "", State := "", Pincode := "", Password := "", ConfirmPassword := ""];
      errors := map[];
      agreedToTerms := false;
      step := 1;
      loading := false;
    }

    /** `validateStep1`: build the report field by field, store it, and pass when it is empty. */
    method ValidateStep1() returns (ok: bool)
      modifies this`errors
      ensures Step1Report(formData, errors)
      ensures ok <==> Step1Ok(formData)
    {
      var email := Value(formData, Email);
      var phone := Value(formData, Phone);
      var firstMissing := IsBlank(Value(formData, FirstName));
      var lastMissing := IsBlank(Value(formData, LastName));
      var emailBad := IsBlank(email) || !ValidEmail(email);
      var phoneBad := IsBlank(phone) || !ValidPhone(phone);
      var emailMessage := if IsBlank(email) then EmailRequired else InvalidEmailFormat;
      var phoneMessage := if IsBlank(phone) then PhoneRequired else InvalidPhoneNumber;
      var e: map<FieldName, Message> := map[];
      if firstMissing {
        e := e[FirstName := FirstNameRequired];
      }
      if lastMissing {
        e := e[LastName := LastNameRequired];
      }
      if emailBad {
        e := e[Email := emailMessage];
      }
      if phoneBad {
        e := e[Phone := phoneMessage];
      }
      errors := e;
      ReportEmptyIffClean(e, FirstName, LastName, Email, Phone, firstMissing, lastMissing, emailBad, phoneBad);
      ok := |e| == 0;
    }

    /** `validateStep2` */
    method ValidateStep2() returns (ok: bool)
      modifies this`errors
      ensures Step2Report(formData, errors)
      ensures ok <==> Step2Ok(formData)
    {
      var pincode := Value(formData, Pincode);
      var addressMissing := IsBlank(Value(formData, Address));
      var cityMissing := IsBlank(Value(formData, City));
      var stateMissing := IsBlank(Value(formData, State));
      var pincodeBad := IsBlank(pincode) || !ValidPincode(pincode);
      var pincodeMessage := if IsBlank(pincode) then PincodeRequired else InvalidPincode;
      var e: map<FieldName, Message> := map[];
      if addressMissing {
        e := e[Address := AddressRequired];
      }
      if cityMissing {
        e := e[City := CityRequired];
      }
      if stateMissing {
        e := e[State := StateRequired];
      }
      if pincodeBad {
        e := e[Pincode := pincodeMessage];
      }
      errors := e;
      ReportEmptyIffClean(e, Address, City, State, Pincode, addressMissing, cityMissing, stateMissing, pincodeBad);
      ok := |e| == 0;
    }

    /** `validateStep3`: the password checks are on the raw values. */
    method ValidateStep3() returns (ok: bool)
      modifies this`errors
      ensures Step3Report(formData, agreedToTerms, errors)
      ensures ok <==> Step3Ok(formData, agreedToTerms)
    {
      var password := Value(formData, Password);
      var confirm := Value(formData, ConfirmPassword);
      var passwordBad := password == "" || |password| < 8;
      var confirmBad := confirm == "" || password != confirm;
      var passwordMessage := if password == "" then PasswordRequired else PasswordTooShort;
      var confirmMessage := if confirm == "" then ConfirmRequired else PasswordsDiffer;
      var e: map<FieldName, Message> := map[];
      if passwordBad {
        e := e[Password := passwordMessage];
      }
      if confirmBad {
        e := e[ConfirmPassword := confirmMessage];
      }
      if !agreedToTerms {
        e := e[Terms := TermsRequired];
      }
      errors := e;
      ReportEmptyIffClean(e, Password, ConfirmPassword, Terms, Terms, passwordBad, confirmBad, !agreedToTerms, !agreedToTerms);
      ok := |e| == 0;
    }

    /**
     * `handleNextStep`: on step 1 or 2, validate that step and advance by one when it is clean;
     * on step 3 nothing happens. The wizard never leaves steps 1 to 3.
     */
    method HandleNextStep()
      requires Valid()
      modifies this`step, this`errors
      ensures Valid()
      ensures old(step) == 1 ==> Step1Report(formData, errors) && step == (if Step1Ok(formData) then 2 else 1)
      ensures old(step) == 2 ==> Step2Report(formData, errors) && step == (if Step2Ok(formData) then 3 else 2)
      ensures old(step) == 3 ==> step == 3 && errors == old(errors)
    {
      if step == 1 {
        var ok := ValidateStep1();
        if ok {
          step := 2;
        }
      } else if step == 2 {
        var ok := ValidateStep2();
        if ok {
          step := 3;
        }
      }
    }

    /** The Back buttons of steps 2 and 3. */
    method Back()
      requires step == 2 || step == 3
      modifies this`step
      ensures step == old(step) - 1 && Valid()
    {
      step := step - 1;
    }

    /** The terms checkbox. */
    method SetAgreedToTerms(checked: bool)
      modifies this`agreedToTerms
      ensures agreedToTerms == checked
    {
      agreedToTerms := checked;
    }

    /** `handleInputChange`: set the field, and blank its error if one is showing; nothing else changes. */
    method HandleInputChange(field: FieldName, value: string)
      modifies this`formData, this`errors
      ensures formData == old(formData)[field := value]
      ensures errors == if field in old(errors) && old(errors)[field] != Cleared then old(errors)[field := Cleared] else old(errors)
    {
      formData := formData[field := value];
      if field in errors && errors[field].Text() != "" {
        errors := errors[field := Cleared];
      }
    }

    /** `handleRegister`: validate step 3; only a clean step starts loading. */
    method HandleRegister()
      modifies this`errors, this`loading
      ensures Step3Report(formData, agreedToTerms, errors)
      ensures loading == (Step3Ok(formData, agreedToTerms) || old(loading))
    {
      var ok := ValidateStep3();
      if ok {
        loading := true;
      }
    }
  }
}
