/**
 * The registration form's schema: seven fields with length and pattern rules,
 * checked field by field, plus a refinement that the two passwords agree,
 * reported on the `confirmPassword` field. Email syntax is the validator
 * library's own and is passed in as a predicate.
 */
module Register {
  import opened Wrappers
  import opened FormRules

  const FullNameMessage: string := "Full name must be at least 2 characters"
  const EmailMessage: string := "Please enter a valid email address"
  const PhoneMessage: string := "Phone number must be at least 10 characters"
  const PasswordMessage: string := "Password must be at least 8 characters"
  const YearMessage: string := "Please enter a valid year"
  const MismatchMessage: string := "Passwords don't match"

  /** One reported problem: the field it is attached to and its message. */
  datatype Issue = Issue(path: string, message: string)

  /**
   * The schema's record; `resume` is `z.any().optional()`, so it may be absent
   * and may hold any value. The department selector is not a schema field.
   */
  datatype RegisterValues<R> = RegisterValues(
    fullName: string,
    email: string,
    phoneNumber: string,
    password: string,
    confirmPassword: string,
    graduationYear: string,
    resume: Option<R>)

  datatype Validation<R> = Accepted(values: RegisterValues<R>) | Rejected(issues: set<Issue>)

  /** The issues of the field rules. */
  function FieldIssues<R>(form: RegisterValues<R>, isEmail: string -> bool): set<Issue>
  {
    (if |form.fullName| < 2 then {Issue("fullName", FullNameMessage)} else {}) +
    (if isEmail(form.email) then {} else {Issue("email", EmailMessage)}) +
    (if |form.phoneNumber| < 10 then {Issue("phoneNumber", PhoneMessage)} else {}) +
    (if |form.password| < 8 then {Issue("password", PasswordMessage)} else {}) +
    (if MatchesFourDigits(form.graduationYear) then {} else {Issue("graduationYear", YearMessage)})
  }

  /** All issues: the field rules plus the password-match refinement. */
  function Issues<R>(form: RegisterValues<R>, isEmail: string -> bool): (issues: set<Issue>)
    ensures Issue("fullName", FullNameMessage) in issues <==> |form.fullName| < 2
    ensures Issue("email", EmailMessage) in issues <==> !isEmail(form.email)
    ensures Issue("phoneNumber", PhoneMessage) in issues <==> |form.phoneNumber| < 10
    ensures Issue("password", PasswordMessage) in issues <==> |form.password| < 8
    ensures Issue("graduationYear", YearMessage) in issues <==> !MatchesFourDigits(form.graduationYear)
    ensures Issue("confirmPassword", MismatchMessage) in issues <==> form.password != form.confirmPassword
    ensures forall i :: i in issues && i.message == MismatchMessage ==> i.path == "confirmPassword"
    ensures forall i :: i in issues ==> i.path != "resume"
    ensures issues <= {Issue("fullName", FullNameMessage), Issue("email", EmailMessage),
                       Issue("phoneNumber", PhoneMessage), Issue("password", PasswordMessage),
                       Issue("graduationYear", YearMessage), Issue("confirmPassword", MismatchMessage)}
  {
    FieldIssues(form, isEmail) +
    (if form.password == form.confirmPassword then {} else {Issue("confirmPassword", MismatchMessage)})
  }

  /** Parsing through the schema: the same record back, or the set of issues. */
  function Validate<R>(form: RegisterValues<R>, isEmail: string -> bool): (r: Validation<R>)
    ensures r.Accepted? <==>
      && |form.fullName| >= 2
      && isEmail(form.email)
      && |form.phoneNumber| >= 10
      && |form.password| >= 8
      && MatchesFourDigits(form.graduationYear)
      && form.password == form.confirmPassword
    ensures r.Accepted? ==> r.values == form
    ensures r.Rejected? ==> r.issues != {} && r.issues == Issues(form, isEmail)
  {
    var issues := Issues(form, isEmail);
    if issues == {} then Accepted(form) else Rejected(issues)
  }

  /** `resume` is never inspected: changing it changes no issue. */
  lemma ResumeIgnored<R>(form: RegisterValues<R>, other: Option<R>, isEmail: string -> bool)
    ensures Issues(form.(resume := other), isEmail) == Issues(form, isEmail)
  {
  }

  /** The phone rule counts characters only: ten letters pass it. */
  lemma PhoneDigitsNotChecked<R>(form: RegisterValues<R>, isEmail: string -> bool)
    requires form.phoneNumber == "abcdefghij"
    ensures Issue("phoneNumber", PhoneMessage) !in Issues(form, isEmail)
  {
  }

  /** The year rule has no range: the accepted years are exactly `0000` to `9999`, zero-padded. */
  lemma YearsAreFourDigitPaddings(year: string)
    ensures MatchesFourDigits(year) <==> exists v: nat :: v < 10000 && year == Padded(v, 4)
  {
    DigitStringsArePaddings(year, 4);
    assert Pow10(4) == 10000;
  }

  lemma YearZeroAccepted()
    ensures MatchesFourDigits("0000")
  {
  }

  /** A mismatch is reported alongside any field issues, on `confirmPassword` only. */
  lemma MismatchReported<R>(form: RegisterValues<R>, isEmail: string -> bool)
    requires form.password != form.confirmPassword
    ensures Validate(form, isEmail).Rejected?
    ensures Issue("confirmPassword", MismatchMessage) in Validate(form, isEmail).issues
    ensures FieldIssues(form, isEmail) <= Validate(form, isEmail).issues
  {
  }
}
