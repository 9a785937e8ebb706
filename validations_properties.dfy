/** What the form schemas accept and reject. */
module ValidationsProperties {
  import opened Seqs
  import opened JsText
  import opened Validations
  import opened Store
  import CrewCounter
  import AlbumPanelProperties

  // ---------------------------------------------------------------
  // Step 1
  // ---------------------------------------------------------------

  /** Step 1 passes exactly when the name has two or more characters, the
      phone ten or more characters all from the phone set, the email is
      valid and a booking type is chosen. */
  lemma Step1Iff(form: Step1Form, isEmail: string -> bool)
    ensures Step1Issues(form, isEmail) == [] <==>
      |form.fullName| >= 2 && |form.phone| >= 10 && MatchesPhonePattern(form.phone) &&
      isEmail(form.email) && |form.bookingType| >= 1
  {
  }

  /** The optional fields never cause an issue. */
  lemma Step1OptionalFieldsIgnored(form: Step1Form, isEmail: string -> bool,
                                   whatsapp: Option<string>, homeAddress: Option<string>,
                                   currentLocation: Option<string>, eventLocation: Option<string>,
                                   eventDate: Option<string>, guestCount: Option<string>,
                                   budgetRange: Option<string>)
    ensures Step1Issues(form.(whatsapp := whatsapp, homeAddress := homeAddress,
                              currentLocation := currentLocation, eventLocation := eventLocation,
                              eventDate := eventDate, guestCount := guestCount,
                              budgetRange := budgetRange), isEmail)
         == Step1Issues(form, isEmail)
  {
  }

  /** An empty phone is reported twice: too short and not matching the pattern. */
  lemma EmptyPhoneReportedTwice(form: Step1Form, isEmail: string -> bool)
    requires form.phone == "" && |form.fullName| >= 2
    ensures Step1Issues(form, isEmail)[..2]
         == [Fail("phone", "Phone number must be at least 10 digits"), Fail("phone", "Invalid phone number format")]
  {
  }

  /** Spaces, dashes, brackets and a leading plus are accepted; a letter
      is not, even in a long enough number. */
  lemma PhoneExamples()
    ensures MatchesPhonePattern("+91 (98) 765-4321")
    ensures !MatchesPhonePattern("98765o4321")
  {
    assert !IsPhoneChar("98765o4321"[5]);
  }

  // ---------------------------------------------------------------
  // Step 2
  // ---------------------------------------------------------------

  /** Step 2 passes exactly when both crew counts are in 1..10. */
  lemma Step2Iff(form: Step2Form)
    ensures Step2Issues(form) == [] <==>
      1 <= form.photographers <= 10 && 1 <= form.cinematographers <= 10
  {
  }

  /** The crew counter, with a minimum of 0 (its default, and the one the
      selected-function card passes), lets a count of 1 go down to 0, which
      step 2 rejects. */
  lemma CounterCanLeaveStep2Range(form: Step2Form)
    requires form.photographers == 1
    ensures var p := CrewCounter.After(form.photographers, CrewCounter.Decrement(form.photographers, Some(0)));
      p == 0 && Step2Issues(form.(photographers := p)) != []
    ensures var p := CrewCounter.After(form.photographers, CrewCounter.Decrement(form.photographers, None));
      p == 0 && Step2Issues(form.(photographers := p)) != []
  {
  }

  /** The draft's initial crew passes step 2. */
  lemma InitialCrewPassesStep2()
    ensures Step2Issues(Step2Form(
      InitialState.crewSelection.photographers, InitialState.crewSelection.cinematographers,
      InitialState.crewSelection.mainEventStartTime, InitialState.crewSelection.mainEventEndTime)) == []
  {
  }

  // ---------------------------------------------------------------
  // Step 3
  // ---------------------------------------------------------------

  /** Step 3 passes exactly when there are at least 60 pages; the page
      count need not be a multiple of 10. */
  lemma Step3Iff(form: Step3Form)
    ensures Step3Issues(form) == [] <==> form.albumPages >= 60
    ensures Step3Issues(form.(albumPages := 65)) == []
  {
  }

  /** Every page count the album control reaches from 60 passes step 3. */
  lemma AlbumControlPassesStep3(form: Step3Form, presses: seq<AlbumPanelProperties.Press>)
    ensures Step3Issues(form.(albumPages := AlbumPanelProperties.Run(60, presses))) == []
  {
    AlbumPanelProperties.RunStaysOnGrid(60, presses);
  }

  // ---------------------------------------------------------------
  // Step 5 and the complete booking
  // ---------------------------------------------------------------

  /** Step 5 passes exactly when the signature has two or more characters
      and the terms are accepted. */
  lemma Step5Iff(form: Step5Form)
    ensures Step5Issues(form) == [] <==> |form.digitalSignature| >= 2 && form.termsAccepted
  {
  }

  /** The complete booking passes exactly when every nested step passes
      and a package is chosen. */
  lemma CompleteIff(b: CompleteBooking, isEmail: string -> bool)
    ensures CompleteIssues(b, isEmail) == [] <==>
      Step1Issues(b.clientInfo, isEmail) == [] && Step2Issues(b.crewSelection) == [] &&
      Step3Issues(b.albumConfig) == [] && |b.selectedPackage| >= 1 &&
      Step5Issues(b.confirmation) == []
  {
  }

  /** Every issue has a path whose first field is one of `roots`. */
  predicate RootedIn(issues: seq<Issue>, roots: set<string>) {
    forall i :: 0 <= i < |issues| ==> |issues[i].path| >= 1 && issues[i].path[0] in roots
  }

  lemma RootedConcat(a: seq<Issue>, b: seq<Issue>, roots: set<string>)
    requires RootedIn(a, roots) && RootedIn(b, roots)
    ensures RootedIn(a + b, roots)
  {
    forall i | 0 <= i < |a + b| ensures |(a + b)[i].path| >= 1 && (a + b)[i].path[0] in roots {
      if i < |a| { assert (a + b)[i] == a[i]; } else { assert (a + b)[i] == b[i - |a|]; }
    }
  }

  lemma UnderRooted(field: string, issues: seq<Issue>, roots: set<string>)
    requires field in roots
    ensures RootedIn(Under(field, issues), roots)
  {
    var r := Under(field, issues);
    forall i | 0 <= i < |r| ensures |r[i].path| >= 1 && r[i].path[0] in roots {
      assert r[i].path == [field] + issues[i].path;
    }
  }

  /** Every issue of the complete booking is reported under one of its five
      top-level fields. */
  lemma CompleteIssuePaths(b: CompleteBooking, isEmail: string -> bool)
    ensures RootedIn(CompleteIssues(b, isEmail),
                     {"clientInfo", "crewSelection", "albumConfig", "selectedPackage", "confirmation"})
  {
    var roots := {"clientInfo", "crewSelection", "albumConfig", "selectedPackage", "confirmation"};
    var a := Under("clientInfo", Step1Issues(b.clientInfo, isEmail));
    var c := Under("crewSelection", Step2Issues(b.crewSelection));
    var d := Under("albumConfig", Step3Issues(b.albumConfig));
    var e := if |b.selectedPackage| < 1 then [Fail("selectedPackage", "Please select a package")] else [];
    var f := Under("confirmation", Step5Issues(b.confirmation));
    UnderRooted("clientInfo", Step1Issues(b.clientInfo, isEmail), roots);
    UnderRooted("crewSelection", Step2Issues(b.crewSelection), roots);
    UnderRooted("albumConfig", Step3Issues(b.albumConfig), roots);
    UnderRooted("confirmation", Step5Issues(b.confirmation), roots);
    assert RootedIn(e, roots);
    RootedConcat(a, c, roots);
    RootedConcat(a + c, d, roots);
    RootedConcat(a + c + d, e, roots);
    RootedConcat(a + c + d + e, f, roots);
  }
}
