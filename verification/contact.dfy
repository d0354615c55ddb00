/**
 * The contact form: four controls with their validators, the error message shown
 * for a control, and submission, which only resets a valid form (the thank-you
 * alert is reported as a flag).
 *
 * Validator behaviour follows Angular's forms library: only `required` reports
 * an empty value (`null` or ""); the length, pattern and email validators accept
 * an empty value and leave it to `required`.
 */
module ContactSection {
  import opened Wrappers

  datatype Field = NameField | EmailField | PhoneField | MessageField

  /** `contactForm.get(name)`: only the four control names resolve to a control. */
  function FieldNamed(name: string): Option<Field> {
    if name == "name" then Some(NameField)
    else if name == "email" then Some(EmailField)
    else if name == "phone" then Some(PhoneField)
    else if name == "message" then Some(MessageField)
    else None
  }

  function AsciiUpper(c: char): char {
    if 'a' <= c <= 'z' then (c as int - 'a' as int + 'A' as int) as char else c
  }

  /** `s` with its first letter in upper case. */
  function Capitalized(s: string): string {
    if s == [] then s else [AsciiUpper(s[0])] + s[1..]
  }

  /** `getFieldLabel`: the capitalised name of a control; any other key comes back unchanged. */
  function FieldLabel(fieldName: string): (shown: string)
    ensures FieldNamed(fieldName).Some? ==> shown == Capitalized(fieldName)
    ensures FieldNamed(fieldName).None? ==> shown == fieldName
  {
    if fieldName == "name" then "Name"
    else if fieldName == "email" then "Email"
    else if fieldName == "phone" then "Phone"
    else if fieldName == "message" then "Message"
    else fieldName
  }

  // ---------------------------------------------------------------------------
  // The phone pattern ^\+?[\d\s\-()]+$

  /** The characters JavaScript's `\s` class matches. */
  predicate IsRegexWhitespace(c: char) {
    c == ' ' || c == '\t' || c == '\n' || c == '\r' || c == '\U{000B}' || c == '\U{000C}' ||
    c == '\U{00A0}' || c == '\U{1680}' || ('\U{2000}' <= c <= '\U{200A}') ||
    c == '\U{2028}' || c == '\U{2029}' || c == '\U{202F}' || c == '\U{205F}' ||
    c == '\U{3000}' || c == '\U{FEFF}'
  }

  /** One character of the class `[\d\s\-()]`. */
  predicate IsPhoneChar(c: char) {
    ('0' <= c <= '9') || IsRegexWhitespace(c) || c == '-' || c == '(' || c == ')'
  }

  /**
   * The whole string matches `^\+?[\d\s\-()]+$`: an optional leading `+`, then at
   * least one character of the class. A `+` is not in the class, so when the
   * string starts with `+` the class must match everything after it.
   */
  predicate MatchesPhonePattern(s: string) {
    var body := if |s| > 0 && s[0] == '+' then s[1..] else s;
    |body| > 0 && AllPhoneChars(body)
  }

  /** `[\d\s\-()]*`, scanned left to right. */
  predicate AllPhoneChars(s: string)
    decreases |s|
  {
    s == [] || (IsPhoneChar(s[0]) && AllPhoneChars(s[1..]))
  }

  lemma {:induction false} AllPhoneCharsEverywhere(s: string)
    ensures AllPhoneChars(s) <==> forall i :: 0 <= i < |s| ==> IsPhoneChar(s[i])
    decreases |s|
  {
    if s != [] {
      AllPhoneCharsEverywhere(s[1..]);
      assert forall i :: 1 <= i < |s| ==> s[1..][i - 1] == s[i];
    }
  }

  /**
   * A character outside the class `[\d\s\-()]` anywhere, other than a single leading
   * `+`, makes a phone number fail the pattern; every letter is such a character.
   */
  lemma OutsideClassFailsPattern(s: string, i: nat)
    requires i < |s| && !IsPhoneChar(s[i]) && (i > 0 || s[i] != '+')
    ensures !MatchesPhonePattern(s)
  {
    if |s| > 0 && s[0] == '+' {
      assert s[1..][i - 1] == s[i];
      AllPhoneCharsEverywhere(s[1..]);
    } else {
      AllPhoneCharsEverywhere(s);
    }
  }

  /** A string made only of class characters matches `[\d\s\-()]*`. */
  lemma AllPhoneCharsFromMembers(s: string)
    requires forall c :: c in s ==> IsPhoneChar(c)
    ensures AllPhoneChars(s)
  {
    AllPhoneCharsEverywhere(s);
  }

  /** The number formats the site accepts: international with spaces or dashes, local with parentheses. */
  lemma PhoneAcceptsCommonFormats()
    ensures MatchesPhonePattern("+30 691 234 5678")
    ensures MatchesPhonePattern("(691) 234-5678")
    ensures MatchesPhonePattern("+30-691-234-5678")
  {
    assert "+30 691 234 5678"[1..] == "30 691 234 5678";
    AllPhoneCharsFromMembers("30 691 234 5678");
    AllPhoneCharsFromMembers("(691) 234-5678");
    assert "+30-691-234-5678"[1..] == "30-691-234-5678";
    AllPhoneCharsFromMembers("30-691-234-5678");
  }

  /** The sign alone, or a second sign, is rejected. */
  lemma PhoneRejectsSigns()
    ensures !MatchesPhonePattern("+")
    ensures !MatchesPhonePattern("++30")
  {
    assert "++30"[1..][0] == '+';
  }

  // ---------------------------------------------------------------------------
  // Decimal rendering of the minimum length in the error message

  function DigitChar(d: nat): char
    requires d < 10
  {
    ('0' as int + d) as char
  }

  /** `${n}` for a whole number `n`: its decimal digits, most significant first. */
  function DecimalString(n: nat): string
    decreases n
  {
    if n < 10 then [DigitChar(n)] else DecimalString(n / 10) + [DigitChar(n % 10)]
  }

  predicate IsDigit(c: char) {
    '0' <= c <= '9'
  }

  /** The number a string of decimal digits denotes. */
  function DecimalValue(s: string): nat
    requires forall i :: 0 <= i < |s| ==> IsDigit(s[i])
    decreases |s|
  {
    if s == [] then 0
    else
      assert IsDigit(s[|s| - 1]);
      DecimalValue(s[..|s| - 1]) * 10 + (s[|s| - 1] as int - '0' as int)
  }

  /** The rendering is a non-empty string of digits, without leading zero, that denotes `n`. */
  lemma {:induction false} DecimalStringRoundTrip(n: nat)
    ensures var s := DecimalString(n);
      |s| >= 1 && (forall i :: 0 <= i < |s| ==> IsDigit(s[i])) &&
      (|s| > 1 ==> s[0] != '0') && DecimalValue(s) == n
    decreases n
  {
    if n >= 10 {
      DecimalStringRoundTrip(n / 10);
      var s := DecimalString(n);
      assert s[..|s| - 1] == DecimalString(n / 10);
    }
  }

  // ---------------------------------------------------------------------------
  // Validators

  datatype Validator = Required | EmailFormat | MinLength(length: nat) | PhonePattern

  /** The validators each control is built with when the component initialises. */
  function ValidatorsOf(f: Field): seq<Validator> {
    match f
    case NameField => [Required, MinLength(2)]
    case EmailField => [Required, EmailFormat]
    case PhoneField => [Required, PhonePattern]
    case MessageField => [Required, MinLength(10)]
  }

  datatype MinLengthError = MinLengthError(requiredLength: nat, actualLength: nat)

  /** The error keys a control can carry, each present or absent. */
  datatype ValidationErrors = ValidationErrors(required: bool, email: bool, minlength: Option<MinLengthError>, pattern: bool)

  const NoErrors: ValidationErrors := ValidationErrors(false, false, None, false)

  /** A control value is `null` (after a reset) or a string. */
  type ControlValue = Option<string>

  predicate IsEmptyInput(value: ControlValue) {
    value.None? || value.value == ""
  }

  /**
   * The errors one validator reports. `isEmail` stands for the email format test of
   * Angular's email validator.
   */
  function RunValidator(v: Validator, value: ControlValue, isEmail: string -> bool): ValidationErrors {
    match v
    case Required =>
      if IsEmptyInput(value) then NoErrors.(required := true) else NoErrors
    case EmailFormat =>
      if IsEmptyInput(value) || isEmail(value.value) then NoErrors else NoErrors.(email := true)
    case MinLength(n) =>
      if IsEmptyInput(value) || |value.value| >= n then NoErrors
      else NoErrors.(minlength := Some(MinLengthError(n, |value.value|)))
    case PhonePattern =>
      if IsEmptyInput(value) || MatchesPhonePattern(value.value) then NoErrors else NoErrors.(pattern := true)
  }

  /** Errors of several validators combined; a later validator's key wins. */
  function Merge(a: ValidationErrors, b: ValidationErrors): ValidationErrors {
    ValidationErrors(
      a.required || b.required,
      a.email || b.email,
      if b.minlength.Some? then b.minlength else a.minlength,
      a.pattern || b.pattern)
  }

  function RunValidators(vs: seq<Validator>, value: ControlValue, isEmail: string -> bool): ValidationErrors
    decreases |vs|
  {
    if vs == [] then NoErrors
    else Merge(RunValidator(vs[0], value, isEmail), RunValidators(vs[1..], value, isEmail))
  }

  /** Every control has two validators, a required check first. */
  lemma ControlErrorsUnfold(f: Field, value: ControlValue, isEmail: string -> bool)
    ensures |ValidatorsOf(f)| == 2 && ValidatorsOf(f)[0] == Required
    ensures ControlErrors(f, value, isEmail) ==
      Merge(RunValidator(Required, value, isEmail), Merge(RunValidator(ValidatorsOf(f)[1], value, isEmail), NoErrors))
  {
    var vs := ValidatorsOf(f);
    assert vs[1..] == [vs[1]];
    assert RunValidators(vs[1..], value, isEmail) == Merge(RunValidator(vs[1], value, isEmail), NoErrors) by {
      assert vs[1..][1..] == [];
    }
  }

  function ControlErrors(f: Field, value: ControlValue, isEmail: string -> bool): ValidationErrors {
    RunValidators(ValidatorsOf(f), value, isEmail)
  }

  predicate ControlValid(f: Field, value: ControlValue, isEmail: string -> bool) {
    ControlErrors(f, value, isEmail) == NoErrors
  }

  /** An empty control of any kind reports `required` and nothing else. */
  lemma EmptyReportsOnlyRequired(f: Field, value: ControlValue, isEmail: string -> bool)
    requires IsEmptyInput(value)
    ensures ControlErrors(f, value, isEmail) == ValidationErrors(true, false, None, false)
  {
    ControlErrorsUnfold(f, value, isEmail);
  }

  /** The name is valid exactly when it has at least two characters; one character reports the minimum of 2. */
  lemma NameValidity(value: ControlValue, isEmail: string -> bool)
    ensures ControlValid(NameField, value, isEmail) <==> value.Some? && |value.value| >= 2
    ensures value.Some? && |value.value| == 1 ==>
      ControlErrors(NameField, value, isEmail) == NoErrors.(minlength := Some(MinLengthError(2, 1)))
  {
    ControlErrorsUnfold(NameField, value, isEmail);
  }

  /** The message is valid exactly when it has at least ten characters. */
  lemma MessageValidity(value: ControlValue, isEmail: string -> bool)
    ensures ControlValid(MessageField, value, isEmail) <==> value.Some? && |value.value| >= 10
    ensures value.Some? && 0 < |value.value| < 10 ==>
      ControlErrors(MessageField, value, isEmail) == NoErrors.(minlength := Some(MinLengthError(10, |value.value|)))
  {
    ControlErrorsUnfold(MessageField, value, isEmail);
  }

  /** The phone is valid exactly when it matches the pattern (which rules out the empty string). */
  lemma PhoneValidity(value: ControlValue, isEmail: string -> bool)
    ensures ControlValid(PhoneField, value, isEmail) <==> value.Some? && MatchesPhonePattern(value.value)
    ensures value.Some? && value.value != "" && !MatchesPhonePattern(value.value) ==>
      ControlErrors(PhoneField, value, isEmail) == NoErrors.(pattern := true)
  {
    ControlErrorsUnfold(PhoneField, value, isEmail);
  }

  /** The email is valid exactly when it is non-empty and passes the email format test. */
  lemma EmailValidity(value: ControlValue, isEmail: string -> bool)
    ensures ControlValid(EmailField, value, isEmail) <==> value.Some? && value.value != "" && isEmail(value.value)
  {
    ControlErrorsUnfold(EmailField, value, isEmail);
  }

  // ---------------------------------------------------------------------------
  // The form

  datatype FormValue = FormValue(name: ControlValue, email: ControlValue, phone: ControlValue, message: ControlValue) {
    function Get(f: Field): ControlValue {
      match f
      case NameField => name
      case EmailField => email
      case PhoneField => phone
      case MessageField => message
    }

    function With(f: Field, v: ControlValue): (r: FormValue)
      ensures r.Get(f) == v
      ensures forall g :: g != f ==> r.Get(g) == Get(g)
    {
      match f
      case NameField => this.(name := v)
      case EmailField => this.(email := v)
      case PhoneField => this.(phone := v)
      case MessageField => this.(message := v)
    }
  }

  /** Every control starts as the empty string. */
  const InitialForm: FormValue := FormValue(Some(""), Some(""), Some(""), Some(""))

  /** `reset()` sets every control to `null`. */
  const ResetForm: FormValue := FormValue(None, None, None, None)

  predicate FormValid(form: FormValue, isEmail: string -> bool) {
    ControlValid(NameField, form.name, isEmail) && ControlValid(EmailField, form.email, isEmail) &&
    ControlValid(PhoneField, form.phone, isEmail) && ControlValid(MessageField, form.message, isEmail)
  }

  /** The form is valid exactly when all four field rules hold. */
  lemma FormValidity(form: FormValue, isEmail: string -> bool)
    ensures FormValid(form, isEmail) <==>
      && form.name.Some? && |form.name.value| >= 2
      && form.email.Some? && form.email.value != "" && isEmail(form.email.value)
      && form.phone.Some? && MatchesPhonePattern(form.phone.value)
      && form.message.Some? && |form.message.value| >= 10
  {
    NameValidity(form.name, isEmail);
    EmailValidity(form.email, isEmail);
    PhoneValidity(form.phone, isEmail);
    MessageValidity(form.message, isEmail);
  }

  /** Neither the fresh form nor a reset one can be submitted, so a second submit in a row does nothing. */
  lemma BlankFormsInvalid(isEmail: string -> bool)
    ensures !FormValid(InitialForm, isEmail)
    ensures !FormValid(ResetForm, isEmail)
  {
    NameValidity(InitialForm.name, isEmail);
    NameValidity(ResetForm.name, isEmail);
  }

  /**
   * The message a non-empty value earns, stated directly on the value: each
   * control's own rule, with the text the component shows for it.
   */
  function MessageForValue(f: Field, s: string, isEmail: string -> bool): string {
    match f
    case NameField => if |s| < 2 then "Minimum 2 characters required" else ""
    case EmailField => if isEmail(s) then "" else "Please enter a valid email address"
    case PhoneField => if MatchesPhonePattern(s) then "" else "Please enter a valid phone number"
    case MessageField => if |s| < 10 then "Minimum 10 characters required" else ""
  }

  /** The message for a control's errors, by priority: required, email, minimum length, pattern. */
  function MessageOf(errors: ValidationErrors, caption: string): string {
    if errors.required then caption + " is required"
    else if errors.email then "Please enter a valid email address"
    else if errors.minlength.Some? then
      "Minimum " + DecimalString(errors.minlength.value.requiredLength) + " characters required"
    else if errors.pattern then "Please enter a valid phone number"
    else ""
  }

  /** The priority chain applied to a control's own validators gives the control's rule. */
  lemma MessageOfControl(f: Field, value: ControlValue, caption: string, isEmail: string -> bool)
    ensures MessageOf(ControlErrors(f, value, isEmail), caption) ==
      if IsEmptyInput(value) then caption + " is required" else MessageForValue(f, value.value, isEmail)
  {
    ControlErrorsUnfold(f, value, isEmail);
    var errors := ControlErrors(f, value, isEmail);
    if IsEmptyInput(value) {
      assert errors.required;
    } else {
      var s := value.value;
      match f
      case NameField =>
        assert errors == if |s| < 2 then NoErrors.(minlength := Some(MinLengthError(2, |s|))) else NoErrors;
        MinimumMessages();
      case EmailField =>
        assert errors == if isEmail(s) then NoErrors else NoErrors.(email := true);
      case PhoneField =>
        assert errors == if MatchesPhonePattern(s) then NoErrors else NoErrors.(pattern := true);
      case MessageField =>
        assert errors == if |s| < 10 then NoErrors.(minlength := Some(MinLengthError(10, |s|))) else NoErrors;
        MinimumMessages();
    }
  }

  /**
   * `getErrorMessage`: the message for the control's most important error, in the
   * order required, email, minimum length, pattern; "" when the control has no
   * error or the name is not a control.
   */
  function ErrorMessage(form: FormValue, fieldName: string, isEmail: string -> bool): (msg: string)
    ensures msg == "" <==> FieldNamed(fieldName).None? ||
                           ControlValid(FieldNamed(fieldName).value, form.Get(FieldNamed(fieldName).value), isEmail)
    ensures FieldNamed(fieldName).Some? ==>
      var f := FieldNamed(fieldName).value;
      msg == if IsEmptyInput(form.Get(f)) then Capitalized(fieldName) + " is required"
             else MessageForValue(f, form.Get(f).value, isEmail)
  {
    match FieldNamed(fieldName)
    case None => ""
    case Some(f) =>
      MessageOfControl(f, form.Get(f), FieldLabel(fieldName), isEmail);
      MessageOf(ControlErrors(f, form.Get(f), isEmail), FieldLabel(fieldName))
  }

  /** An empty control always gets the "is required" message with its label. */
  lemma EmptyFieldMessage(form: FormValue, f: Field, fieldName: string, isEmail: string -> bool)
    requires FieldNamed(fieldName) == Some(f) && IsEmptyInput(form.Get(f))
    ensures ErrorMessage(form, fieldName, isEmail) == Capitalized(fieldName) + " is required"
  {
    EmptyReportsOnlyRequired(f, form.Get(f), isEmail);
  }

  lemma SmallDecimals()
    ensures DecimalString(2) == "2" && DecimalString(10) == "10"
  {
    assert DecimalString(1) == "1";
  }

  /** The two minimum-length messages the form can show, spelled out. */
  lemma MinimumMessages()
    ensures "Minimum " + DecimalString(2) + " characters required" == "Minimum 2 characters required"
    ensures "Minimum " + DecimalString(10) + " characters required" == "Minimum 10 characters required"
  {
    SmallDecimals();
  }

  /** A one-letter name reports the configured minimum of 2. */
  lemma NameTooShortMessage(form: FormValue, isEmail: string -> bool)
    requires form.name.Some? && |form.name.value| == 1
    ensures ErrorMessage(form, "name", isEmail) == "Minimum 2 characters required"
  {
  }

  /** A message of one to nine characters reports the configured minimum of 10. */
  lemma MessageTooShortMessage(form: FormValue, isEmail: string -> bool)
    requires form.message.Some? && 0 < |form.message.value| < 10
    ensures ErrorMessage(form, "message", isEmail) == "Minimum 10 characters required"
  {
  }

  /**
   * A non-empty phone number that fails the pattern reports the phone message, and
   * so does one with a letter anywhere; a non-empty email failing the format test
   * reports the email message.
   */
  lemma FormatMessages(form: FormValue, isEmail: string -> bool, i: nat)
    ensures form.phone.Some? && form.phone.value != "" && !MatchesPhonePattern(form.phone.value) ==>
      ErrorMessage(form, "phone", isEmail) == "Please enter a valid phone number"
    ensures form.phone.Some? && i < |form.phone.value| &&
            (('a' <= form.phone.value[i] <= 'z') || ('A' <= form.phone.value[i] <= 'Z')) ==>
      ErrorMessage(form, "phone", isEmail) == "Please enter a valid phone number"
    ensures form.email.Some? && form.email.value != "" && !isEmail(form.email.value) ==>
      ErrorMessage(form, "email", isEmail) == "Please enter a valid email address"
  {
    if form.phone.Some? && i < |form.phone.value| &&
       (('a' <= form.phone.value[i] <= 'z') || ('A' <= form.phone.value[i] <= 'Z')) {
      OutsideClassFailsPattern(form.phone.value, i);
    }
  }

  class ContactSectionComponent {
    var contactForm: FormValue
    /** The email format test Angular's email validator applies. */
    const isEmail: string -> bool

    /** Creation followed by `ngOnInit`, which builds the four empty controls. */
    constructor (isEmail: string -> bool)
      ensures contactForm == InitialForm && this.isEmail == isEmail
    {
      this.isEmail := isEmail;
      contactForm := InitialForm;
    }

    /** The user edits one control. */
    method SetValue(f: Field, v: ControlValue)
      modifies this`contactForm
      ensures contactForm == old(contactForm).With(f, v)
    {
      contactForm := contactForm.With(f, v);
    }

    /** Submit: a valid form raises the thank-you alert and is reset; an invalid one is left alone. */
    method OnSubmit() returns (alerted: bool)
      modifies this`contactForm
      ensures alerted == FormValid(old(contactForm), isEmail)
      ensures contactForm == if alerted then ResetForm else old(contactForm)
    {
      alerted := FormValid(contactForm, isEmail);
      if alerted {
        contactForm := ResetForm;
      }
    }

    /** `getErrorMessage`: the message for a control of the component's current form. */
    function GetErrorMessage(fieldName: string): (msg: string)
      reads this
      ensures msg == ErrorMessage(contactForm, fieldName, isEmail)
    {
      ErrorMessage(contactForm, fieldName, isEmail)
    }
  }
}
