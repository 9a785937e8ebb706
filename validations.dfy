/** The field rules of the wizard's form schemas. Each schema yields the
    list of issues it reports, in the order its fields and checks are
    declared; a form passes exactly when the list is empty. Email syntax
    is a parameter. */
module Validations {
  import opened Seqs
  import opened JsText

  /** One reported problem: the path of the field and its message; None is
      the library's own message for a check declared without one. */
  datatype Issue = Issue(path: seq<string>, message: Option<string>)

  function Fail(field: string, message: string): Issue {
    Issue([field], Some(message))
  }

  // ---------------------------------------------------------------
  // Step 1
  // ---------------------------------------------------------------

  /** The step-1 form. Absent optional fields are None. */
  datatype Step1Form = Step1Form(
    fullName: string, phone: string, whatsapp: Option<string>, email: string,
    homeAddress: Option<string>, currentLocation: Option<string>,
    bookingType: string, eventLocation: Option<string>, eventDate: Option<string>,
    guestCount: Option<string>, budgetRange: Option<string>)

  /** A character of the phone pattern [0-9+\-\s()]. */
  predicate IsPhoneChar(c: char) {
    ('0' <= c <= '9') || c == '+' || c == '-' || IsJsWhitespace(c) || c == '(' || c == ')'
  }

  /** /^[0-9+\-\s()]+$/: one or more phone characters and nothing else. */
  predicate MatchesPhonePattern(s: string) {
    |s| >= 1 && forall i :: 0 <= i < |s| ==> IsPhoneChar(s[i])
  }

  /** step1Schema: every check of every field runs and reports. */
  function Step1Issues(form: Step1Form, isEmail: string -> bool): seq<Issue> {
    (if |form.fullName| < 2 then [Fail("fullName", "Full name must be at least 2 characters")] else []) +
    (if |form.phone| < 10 then [Fail("phone", "Phone number must be at least 10 digits")] else []) +
    (if !MatchesPhonePattern(form.phone) then [Fail("phone", "Invalid phone number format")] else []) +
    (if !isEmail(form.email) then [Fail("email", "Invalid email address")] else []) +
    (if |form.bookingType| < 1 then [Fail("bookingType", "Please select a booking type")] else [])
  }

  // ---------------------------------------------------------------
  // Step 2
  // ---------------------------------------------------------------

  datatype Step2Form = Step2Form(
    photographers: int, cinematographers: int,
    mainEventStartTime: string, mainEventEndTime: string)

  /** step2Schema: each crew count in 1..10. */
  function Step2Issues(form: Step2Form): seq<Issue> {
    (if form.photographers < 1 then [Fail("photographers", "At least 1 photographer required")] else []) +
    (if form.photographers > 10 then [Issue(["photographers"], None)] else []) +
    (if form.cinematographers < 1 then [Fail("cinematographers", "At least 1 cinematographer required")] else []) +
    (if form.cinematographers > 10 then [Issue(["cinematographers"], None)] else [])
  }

  // ---------------------------------------------------------------
  // Step 3
  // ---------------------------------------------------------------

  datatype Step3Form = Step3Form(
    albumPages: int, albumType: string, complimentaryItem: Option<string>, videoAddons: seq<string>)

  /** step3Schema: at least 60 pages; nothing else is checked. */
  function Step3Issues(form: Step3Form): seq<Issue> {
    if form.albumPages < 60 then [Fail("albumPages", "Minimum 60 pages required")] else []
  }

  // ---------------------------------------------------------------
  // Step 5
  // ---------------------------------------------------------------

  datatype Step5Form = Step5Form(digitalSignature: string, termsAccepted: bool)

  /** step5Schema: a signature of two or more characters and accepted terms. */
  function Step5Issues(form: Step5Form): seq<Issue> {
    (if |form.digitalSignature| < 2 then [Fail("digitalSignature", "Please enter your full name as signature")] else []) +
    (if !form.termsAccepted then [Fail("termsAccepted", "You must accept the terms and conditions")] else [])
  }

  // ---------------------------------------------------------------
  // The complete booking
  // ---------------------------------------------------------------

  datatype CompleteBooking = CompleteBooking(
    clientInfo: Step1Form, crewSelection: Step2Form, albumConfig: Step3Form,
    selectedPackage: string, confirmation: Step5Form)

  /** The issues of a nested schema, with the field's name in front of their paths. */
  function Under(field: string, issues: seq<Issue>): (r: seq<Issue>)
    ensures |r| == |issues|
    ensures forall i :: 0 <= i < |issues| ==> r[i] == Issue([field] + issues[i].path, issues[i].message)
  {
    if |issues| == 0 then []
    else [Issue([field] + issues[0].path, issues[0].message)] + Under(field, issues[1..])
  }

  /** completeBookingSchema. */
  function CompleteIssues(b: CompleteBooking, isEmail: string -> bool): seq<Issue> {
    Under("clientInfo", Step1Issues(b.clientInfo, isEmail)) +
    Under("crewSelection", Step2Issues(b.crewSelection)) +
    Under("albumConfig", Step3Issues(b.albumConfig)) +
    (if |b.selectedPackage| < 1 then [Fail("selectedPackage", "Please select a package")] else []) +
    Under("confirmation", Step5Issues(b.confirmation))
  }
}
