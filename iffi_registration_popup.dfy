/** The early-registration popup: the e-mail and phone patterns, the form validation
    (one message per failing field), input changes, the row inserted on submit, and the
    local-storage flags that open the popup once and never after it was closed. The
    database answer and the two-second timer are inputs. */
module IffiRegistrationPopup {
  import opened Base
  import opened Text

  /** A character the e-mail pattern's `[^\s@]` class admits. */
  predicate Plain(c: char)
  {
    !IsSpace(c) && c != '@'
  }

  /** Every character of `s[lo..hi]` is plain. */
  predicate AllPlain(s: string, lo: int, hi: int)
  {
    forall t :: lo <= t < hi && 0 <= t < |s| ==> Plain(s[t])
  }

  /** `s` matches `^[^\s@]+@[^\s@]+\.[^\s@]+$` with its '@' at `i` and the chosen '.' at `j`. */
  predicate EmailSplit(s: string, i: int, j: int)
  {
    && 0 < i && i + 1 < j && j + 1 < |s|
    && s[i] == '@' && s[j] == '.'
    && AllPlain(s, 0, i) && AllPlain(s, i + 1, j) && AllPlain(s, j + 1, |s|)
  }

  /** `validateEmail`: the pattern matches the whole string for some choice of '@' and '.'. */
  predicate ValidateEmail(s: string)
  {
    exists i, j | 0 <= i < |s| && 0 <= j < |s| :: EmailSplit(s, i, j)
  }

  /** The '@' at `k` is the only one. */
  predicate OnlyAt(s: string, k: int)
  {
    0 <= k < |s| && s[k] == '@' && forall t :: 0 <= t < |s| && t != k ==> s[t] != '@'
  }

  /** A '.' strictly inside the part after the '@' at `k`. */
  predicate DotInDomain(s: string, k: int, j: int)
  {
    0 <= k && k + 1 < j < |s| - 1 && s[j] == '.'
  }

  /** The pattern in plain terms: no white space, exactly one '@' with something before
      it, and a '.' after it that is neither the domain's first nor its last character. */
  lemma EmailShape(s: string)
    ensures ValidateEmail(s) <==>
      && NoSpace(s)
      && exists k | 0 < k < |s| :: OnlyAt(s, k) && exists j | 0 <= j < |s| :: DotInDomain(s, k, j)
  {
    if ValidateEmail(s) {
      var i, j :| 0 <= i < |s| && 0 <= j < |s| && EmailSplit(s, i, j);
      forall t | 0 <= t < |s|
        ensures !IsSpace(s[t]) && (t != i ==> s[t] != '@')
      {
        if t != i && t != j {
          assert Plain(s[t]);
        }
      }
      assert OnlyAt(s, i) && DotInDomain(s, i, j);
    }
    if && NoSpace(s)
       && exists k | 0 < k < |s| :: OnlyAt(s, k) && exists j | 0 <= j < |s| :: DotInDomain(s, k, j)
    {
      var k :| 0 < k < |s| && OnlyAt(s, k) && exists j | 0 <= j < |s| :: DotInDomain(s, k, j);
      var j :| 0 <= j < |s| && DotInDomain(s, k, j);
      assert EmailSplit(s, k, j);
    }
  }

  /** A character of the phone pattern's `[\d\s\-()]` class. */
  predicate PhoneChar(c: char)
  {
    IsDigit(c) || IsSpace(c) || c == '-' || c == '(' || c == ')'
  }

  predicate AllPhoneChars(s: string)
  {
    forall t :: 0 <= t < |s| ==> PhoneChar(s[t])
  }

  /** `validatePhone`: `^[+]?[\d\s\-()]{10,}$`, an optional '+' and at least ten characters
      of the class. */
  predicate ValidatePhone(s: string)
  {
    || (|s| >= 10 && AllPhoneChars(s))
    || (s != [] && s[0] == '+' && |s[1..]| >= 10 && AllPhoneChars(s[1..]))
  }

  /** The leading '+' is optional and nothing else: a number is accepted with it exactly
      when it is accepted without it, and an accepted number has no other '+'. */
  lemma PhonePlus(s: string)
    requires s == [] || s[0] != '+'
    ensures ValidatePhone(['+'] + s) <==> ValidatePhone(s)
    ensures ValidatePhone(s) ==> '+' !in s && |s| >= 10
  {
    assert (['+'] + s)[1..] == s;
    if ValidatePhone(['+'] + s) {
      assert !PhoneChar('+');
      assert !AllPhoneChars(['+'] + s) by { assert (['+'] + s)[0] == '+'; }
    }
    if ValidatePhone(s) {
      assert AllPhoneChars(s);
      forall t | 0 <= t < |s| ensures s[t] != '+' {
        assert PhoneChar(s[t]);
      }
    }
  }

  /** The form's fields. */
  datatype FormData = FormData(
    fullName: string,
    officialEmail: string,
    phoneNumber: string,
    businessType: string,
    state: string,
    country: string,
    notes: string)

  const EmptyForm: FormData := FormData("", "", "", "", "", "", "")

  /** The message for the full name, if it fails: blank after trimming, then shorter than
      two UTF-16 code units (JavaScript's `length`). */
  function NameError(name: string): (e: Option<string>)
    ensures e.None? <==> Utf16Length(Trim(name)) >= 2
    ensures Trim(name) == "" ==> e == Some("Full name is required")
    ensures Trim(name) != "" && Utf16Length(Trim(name)) < 2 ==> e == Some("Name must be at least 2 characters")
  {
    if Trim(name) == "" then Some("Full name is required")
    else if Utf16Length(Trim(name)) < 2 then Some("Name must be at least 2 characters")
    else None
  }

  /** A single character is long enough exactly when it lies above U+FFFF: JavaScript
      counts its surrogate pair as two. */
  lemma NameOfOneCharacter(c: char)
    requires !IsSpace(c)
    ensures NameError([c]).None? <==> c as int > 0xFFFF
    ensures NameError("\U{1F600}") == None
    ensures NameError("a") == Some("Name must be at least 2 characters")
  {
    TrimKeeps([c]);
    TrimKeeps("\U{1F600}");
    TrimKeeps("a");
  }

  /** Presence is judged on the trimmed value, the format on the raw one. */
  function EmailError(email: string): (e: Option<string>)
    ensures e.None? <==> Trim(email) != "" && ValidateEmail(email)
    ensures Trim(email) == "" ==> e == Some("Official email is required")
  {
    if Trim(email) == "" then Some("Official email is required")
    else if !ValidateEmail(email) then Some("Please enter a valid email address")
    else None
  }

  function PhoneError(phone: string): (e: Option<string>)
    ensures e.None? <==> Trim(phone) != "" && ValidatePhone(phone)
    ensures Trim(phone) == "" ==> e == Some("Phone number is required")
  {
    if Trim(phone) == "" then Some("Phone number is required")
    else if !ValidatePhone(phone) then Some("Please enter a valid phone number")
    else None
  }

  /** The error object: a message per field, absent when the field passes. A blanked
      message (after an input change) is present but empty. */
  datatype FormErrors = FormErrors(
    fullName: Option<string>,
    officialEmail: Option<string>,
    phoneNumber: Option<string>,
    businessType: Option<string>,
    state: Option<string>,
    country: Option<string>)

  const NoErrors: FormErrors := FormErrors(None, None, None, None, None, None)

  /** `Object.keys(errors).length`. */
  function ErrorCount(e: FormErrors): (n: nat)
    ensures n <= 6
    ensures n == 0 <==> e == NoErrors
  {
    (if e.fullName.Some? then 1 else 0) + (if e.officialEmail.Some? then 1 else 0)
    + (if e.phoneNumber.Some? then 1 else 0) + (if e.businessType.Some? then 1 else 0)
    + (if e.state.Some? then 1 else 0) + (if e.country.Some? then 1 else 0)
  }

  /** `validateForm`'s error object: one message for each failing field, nothing else. */
  function ValidateForm(f: FormData): (errors: FormErrors)
    ensures errors.fullName == NameError(f.fullName)
    ensures errors.officialEmail == EmailError(f.officialEmail)
    ensures errors.phoneNumber == PhoneError(f.phoneNumber)
    ensures errors.businessType.Some? <==> f.businessType == ""
    ensures errors.state.Some? <==> Trim(f.state) == ""
    ensures errors.country.Some? <==> Trim(f.country) == ""
    ensures errors.businessType.Some? ==> errors.businessType.value == "Please select your business type"
    ensures errors.state.Some? ==> errors.state.value == "State is required"
    ensures errors.country.Some? ==> errors.country.value == "Country is required"
  {
    FormErrors(
      NameError(f.fullName),
      EmailError(f.officialEmail),
      PhoneError(f.phoneNumber),
      if f.businessType == "" then Some("Please select your business type") else None,
      if Trim(f.state) == "" then Some("State is required") else None,
      if Trim(f.country) == "" then Some("Country is required") else None)
  }

  /** The form passes when the error object is empty. */
  predicate FormValid(f: FormData)
  {
    ErrorCount(ValidateForm(f)) == 0
  }

  /** Validity in terms of the fields: a trimmed name of at least two UTF-16 code units, an
      e-mail and a phone number that are present and match, and the three required fields. */
  lemma FormValidIff(f: FormData)
    ensures FormValid(f) <==>
      && Utf16Length(Trim(f.fullName)) >= 2
      && Trim(f.officialEmail) != "" && ValidateEmail(f.officialEmail)
      && Trim(f.phoneNumber) != "" && ValidatePhone(f.phoneNumber)
      && f.businessType != "" && Trim(f.state) != "" && Trim(f.country) != ""
  {
  }

  /** The empty form fails on every field, and an e-mail with surrounding white space fails
      the format check though it passes the presence check. */
  lemma ValidationExamples(email: string)
    requires email != [] && IsSpace(email[0]) && !AllSpace(email)
    ensures ErrorCount(ValidateForm(EmptyForm)) == 6
    ensures EmailError(email) == Some("Please enter a valid email address")
  {
    TrimEmptyIff(email);
    EmailShape(email);
  }

  /** `handleInputChange` on the form: the named field takes the value. */
  function SetField(f: FormData, name: string, value: string): (r: FormData)
    ensures name == "fullName" ==> r == f.(fullName := value)
    ensures name == "officialEmail" ==> r == f.(officialEmail := value)
    ensures name == "phoneNumber" ==> r == f.(phoneNumber := value)
    ensures name == "businessType" ==> r == f.(businessType := value)
    ensures name == "state" ==> r == f.(state := value)
    ensures name == "country" ==> r == f.(country := value)
    ensures name == "notes" ==> r == f.(notes := value)
    ensures name !in {"fullName", "officialEmail", "phoneNumber", "businessType", "state", "country", "notes"} ==> r == f
  {
    match name
    case "fullName" => f.(fullName := value)
    case "officialEmail" => f.(officialEmail := value)
    case "phoneNumber" => f.(phoneNumber := value)
    case "businessType" => f.(businessType := value)
    case "state" => f.(state := value)
    case "country" => f.(country := value)
    case "notes" => f.(notes := value)
    case _ => f
  }

  /** Blanks a message when it is shown. */
  function Blank(e: Option<string>): (r: Option<string>)
    ensures r.None? <==> e.None?
    ensures r.Some? ==> r.value == ""
  {
    if e.Some? then Some("") else None
  }

  /** `handleInputChange` on the errors: a shown error of that field is blanked, the rest stay. */
  function ClearError(errors: FormErrors, name: string): (r: FormErrors)
    ensures ErrorCount(r) == ErrorCount(errors)
    ensures name == "fullName" ==> r == errors.(fullName := Blank(errors.fullName))
    ensures name == "officialEmail" ==> r == errors.(officialEmail := Blank(errors.officialEmail))
    ensures name == "phoneNumber" ==> r == errors.(phoneNumber := Blank(errors.phoneNumber))
    ensures name == "businessType" ==> r == errors.(businessType := Blank(errors.businessType))
    ensures name == "state" ==> r == errors.(state := Blank(errors.state))
    ensures name == "country" ==> r == errors.(country := Blank(errors.country))
    ensures name !in {"fullName", "officialEmail", "phoneNumber", "businessType", "state", "country"} ==> r == errors
  {
    match name
    case "fullName" => errors.(fullName := Blank(errors.fullName))
    case "officialEmail" => errors.(officialEmail := Blank(errors.officialEmail))
    case "phoneNumber" => errors.(phoneNumber := Blank(errors.phoneNumber))
    case "businessType" => errors.(businessType := Blank(errors.businessType))
    case "state" => errors.(state := Blank(errors.state))
    case "country" => errors.(country := Blank(errors.country))
    case _ => errors
  }

  /** The `early_registrations` row inserted on submit. */
  datatype Registration = Registration(
    fullName: string,
    officialEmail: string,
    phoneNumber: string,
    businessType: string,
    state: string,
    country: string,
    notes: Option<string>)

  /** Every text field trimmed, the e-mail lower-cased too, blank notes stored as null. */
  function ToRegistration(f: FormData): (r: Registration)
    ensures r.fullName == Trim(f.fullName) && r.phoneNumber == Trim(f.phoneNumber)
    ensures r.officialEmail == Lower(Trim(f.officialEmail))
    ensures r.businessType == f.businessType
    ensures r.state == Trim(f.state) && r.country == Trim(f.country)
    ensures r.notes.None? <==> Trim(f.notes) == ""
    ensures r.notes.Some? ==> r.notes.value == Trim(f.notes)
  {
    var notes := Trim(f.notes);
    Registration(Trim(f.fullName), Lower(Trim(f.officialEmail)), Trim(f.phoneNumber), f.businessType,
                 Trim(f.state), Trim(f.country), if notes == "" then None else Some(notes))
  }

  /** A valid form gives a row whose e-mail is lower case and still matches the pattern,
      and whose required text fields are non-blank. */
  lemma RegistrationOfValidForm(f: FormData)
    requires FormValid(f)
    ensures var r := ToRegistration(f);
      && Lower(r.officialEmail) == r.officialEmail
      && r.fullName != "" && r.state != "" && r.country != "" && r.businessType != ""
  {
    LowerIdempotent(Trim(f.officialEmail));
  }

  /** What the insert answered. */
  datatype InsertAnswer = Inserted(registrationNumber: string) | DbError(code: string) | Thrown

  /** A flag as `localStorage.getItem` reads it from the stored pairs. */
  function StoredFlag(storage: map<string, string>, key: string): Option<string>
  {
    if key in storage then Some(storage[key]) else None
  }

  /** The mount effect schedules the popup only when neither the seen flag nor the
      dismissal flag is set. */
  predicate SchedulesPopup(storage: map<string, string>)
  {
    !TruthyStr(StoredFlag(storage, "iffi_popup_seen")) && !TruthyStr(StoredFlag(storage, "iffi_popup_dismissed"))
  }

  /** The popup's state, including the local storage it reads and writes. */
  class PopupView {
    var isOpen: bool
    var isSubmitting: bool
    var isSuccess: bool
    var registrationNumber: string
    var form: FormData
    var errors: FormErrors
    var storage: map<string, string>
    /** Every form sent to the insert (as `ToRegistration`), whether the insert
        succeeded or not, in order. */
    var inserted: seq<FormData>

    constructor (storage: map<string, string>)
      ensures !isOpen && !isSubmitting && !isSuccess && registrationNumber == ""
      ensures form == EmptyForm && errors == NoErrors && this.storage == storage && inserted == []
    {
      isOpen := false;
      isSubmitting := false;
      isSuccess := false;
      registrationNumber := "";
      form := EmptyForm;
      errors := NoErrors;
      this.storage := storage;
      inserted := [];
    }

    /** The stored flag, as `localStorage.getItem` reads it. */
    function Flag(key: string): Option<string>
      reads this
    {
      StoredFlag(storage, key)
    }

    /** The mount effect: with neither flag set, the popup opens once the timer fires and
        marks itself seen. */
    method Mount(timerFires: bool)
      modifies this
      ensures var schedule := SchedulesPopup(old(storage));
        && isOpen == (if schedule && timerFires then true else old(isOpen))
        && storage == (if schedule && timerFires then old(storage)["iffi_popup_seen" := "true"] else old(storage))
      ensures form == old(form) && errors == old(errors) && inserted == old(inserted)
      ensures isSuccess == old(isSuccess) && isSubmitting == old(isSubmitting)
    {
      var schedule := SchedulesPopup(storage);
      if schedule && timerFires {
        isOpen := true;
        storage := storage["iffi_popup_seen" := "true"];
      }
    }

    /** `handleClose`: close and remember the dismissal. */
    method Close()
      modifies this
      ensures !isOpen && storage == old(storage)["iffi_popup_dismissed" := "true"]
      ensures form == old(form) && errors == old(errors) && inserted == old(inserted)
      ensures isSuccess == old(isSuccess) && isSubmitting == old(isSubmitting)
    {
      isOpen := false;
      storage := storage["iffi_popup_dismissed" := "true"];
    }

    /** `handleInputChange`. */
    method InputChange(name: string, value: string)
      modifies this
      ensures form == SetField(old(form), name, value) && errors == ClearError(old(errors), name)
      ensures isOpen == old(isOpen) && storage == old(storage) && inserted == old(inserted)
    {
      form := SetField(form, name, value);
      errors := ClearError(errors, name);
    }

    /** The first half of `handleSubmit`: `validateForm` replaces the errors and tells
        whether the form may be sent. */
    method Validate() returns (valid: bool)
      modifies this`errors
      ensures errors == ValidateForm(form) && valid == FormValid(form)
    {
      valid := FormValid(form);
      errors := ValidateForm(form);
    }

    /** The second half: the row is inserted and the answer decides between success, the
        duplicate-e-mail error and a failure toast; submitting ends either way. */
    method Send(answer: InsertAnswer)
      modifies this
      ensures inserted == old(inserted) + [old(form)] && !isSubmitting
      ensures errors == (if answer.DbError? && answer.code == "23505"
                         then old(errors).(officialEmail := Some("Email already registered")) else old(errors))
      ensures answer.Inserted? ==>
        isSuccess && registrationNumber == answer.registrationNumber
        && storage == old(storage)["iffi_registered" := "true"]
      ensures !answer.Inserted? ==>
        isSuccess == old(isSuccess) && registrationNumber == old(registrationNumber) && storage == old(storage)
      ensures form == old(form) && isOpen == old(isOpen)
    {
      isSubmitting := true;
      inserted := inserted + [form];
      if answer.Inserted? {
        registrationNumber := answer.registrationNumber;
        isSuccess := true;
        storage := storage["iffi_registered" := "true"];
      } else if answer.DbError? && answer.code == "23505" {
        errors := errors.(officialEmail := Some("Email already registered"));
      }
      isSubmitting := false;
    }

    /** `handleSubmit`: an invalid form only shows its errors; a valid one is sent. */
    method Submit(answer: InsertAnswer)
      modifies this
      ensures var valid := FormValid(old(form));
        && (!valid ==> errors == ValidateForm(old(form)) && inserted == old(inserted) && storage == old(storage))
        && (valid ==> errors == AnswerErrors(answer) && inserted == old(inserted) + [old(form)])
      ensures !FormValid(old(form)) ==>
        isSuccess == old(isSuccess) && registrationNumber == old(registrationNumber) && isSubmitting == old(isSubmitting)
      ensures FormValid(old(form)) ==> !isSubmitting
      ensures FormValid(old(form)) && answer.Inserted? ==>
        isSuccess && registrationNumber == answer.registrationNumber && storage == old(storage)["iffi_registered" := "true"]
      ensures FormValid(old(form)) && !answer.Inserted? ==>
        isSuccess == old(isSuccess) && registrationNumber == old(registrationNumber) && storage == old(storage)
      ensures form == old(form) && isOpen == old(isOpen)
    {
      var valid := Validate();
      if valid {
        assert ErrorCount(errors) == 0;
        assert errors == NoErrors;
        Send(answer);
      }
    }
  }

  /** The errors after a valid form was sent: only a unique-key violation (code 23505)
      marks the e-mail as registered already. */
  function AnswerErrors(answer: InsertAnswer): (e: FormErrors)
    ensures e != NoErrors <==> answer.DbError? && answer.code == "23505"
    ensures e != NoErrors ==> e == NoErrors.(officialEmail := Some("Email already registered"))
  {
    if answer.DbError? && answer.code == "23505" then NoErrors.(officialEmail := Some("Email already registered"))
    else NoErrors
  }

  /** Once closed (`Close` sets the dismissal flag), or once shown (`Mount` sets the seen
      flag), a later `Mount` schedules nothing, whatever else is stored. */
  lemma ClosedStaysClosed(storage: map<string, string>)
    ensures !SchedulesPopup(storage["iffi_popup_dismissed" := "true"])
    ensures !SchedulesPopup(storage["iffi_popup_seen" := "true"])
  {
  }
}
