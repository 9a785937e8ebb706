/** What the bookings endpoint's checks promise. */
module BookingsRouteProperties {
  import opened Seqs
  import opened BookingsRoute
  import opened JsText

  // ---------------------------------------------------------------
  // Missing fields
  // ---------------------------------------------------------------

  /** The filter distributes over a split of the field list, so the
      missing fields come out in the order they are listed. */
  lemma {:induction false} MissingAmongAppend(a: seq<string>, b: seq<string>, body: Body)
    ensures MissingAmong(a + b, body) == MissingAmong(a, body) + MissingAmong(b, body)
  {
    if |b| > 0 {
      var ab := a + b;
      assert ab[..|ab| - 1] == a + b[..|b| - 1];
      assert ab[|ab| - 1] == b[|b| - 1];
      MissingAmongAppend(a, b[..|b| - 1], body);
    } else {
      assert a + b == a;
    }
  }

  /** A field is reported exactly when it is listed and its value is missing. */
  lemma {:induction false} MissingMembership(fields: seq<string>, body: Body, f: string)
    ensures f in MissingAmong(fields, body) <==> f in fields && IsMissing(f, Lookup(body, f))
  {
    if |fields| > 0 {
      var init := fields[..|fields| - 1];
      MissingMembership(init, body, f);
      assert fields == init + [fields[|fields| - 1]];
    }
  }

  /** Zero and false count as present, whatever the field. */
  lemma ZeroAndFalseArePresent(field: string, body: Body)
    requires field in body
    requires body[field] == JNum(0.0) || body[field] == JBool(false)
    ensures field !in MissingAmong(RequiredFields, body)
  {
    MissingMembership(RequiredFields, body, field);
  }

  /** An empty array is missing only as selected_functions. */
  lemma EmptyArrayMissingOnlyForFunctions(field: string)
    ensures IsMissing(field, Some(JArr([]))) <==> field == "selected_functions"
  {
  }

  /** A whitespace-only string is missing; any other string is present. */
  lemma StringMissingIffBlank(field: string, s: string)
    ensures IsMissing(field, Some(JStr(s))) <==> AllWhitespace(s)
  {
    TrimEmptyIffAllWhite(s);
  }

  // ---------------------------------------------------------------
  // POST
  // ---------------------------------------------------------------

  /** Every required field holds a value that is not missing. */
  predicate Complete(body: Body) {
    forall i :: 0 <= i < |RequiredFields| ==> !IsMissing(RequiredFields[i], Lookup(body, RequiredFields[i]))
  }

  lemma CompleteIffNoneMissing(body: Body)
    ensures Complete(body) <==> MissingFields(body) == []
  {
    if MissingFields(body) != [] {
      var f := MissingFields(body)[0];
      MissingMembership(RequiredFields, body, f);
      var i :| 0 <= i < |RequiredFields| && RequiredFields[i] == f;
      assert IsMissing(RequiredFields[i], Lookup(body, RequiredFields[i]));
    }
    if !Complete(body) {
      var i :| 0 <= i < |RequiredFields| && IsMissing(RequiredFields[i], Lookup(body, RequiredFields[i]));
      MissingMembership(RequiredFields, body, RequiredFields[i]);
    }
  }

  /** A booking is created exactly when no required field is missing and
      terms_accepted is truthy; any incomplete body gets 400. */
  lemma PostCreatesIff(body: Body)
    ensures Post(body).CreateBooking? <==> Complete(body) && Truthy(Lookup(body, "terms_accepted"))
    ensures !Complete(body) ==> Post(body) == MissingRequired(MissingFields(body)) && PostStatus(Post(body)) == 400
  {
    CompleteIffNoneMissing(body);
  }

  /** terms_accepted: false passes the missing-field check, yet the body is
      never accepted; once the rest is complete the terms check rejects it. */
  lemma TermsFalseRejected(body: Body)
    requires "terms_accepted" in body && body["terms_accepted"] == JBool(false)
    ensures "terms_accepted" !in MissingFields(body)
    ensures !Post(body).CreateBooking?
    ensures Complete(body) ==> Post(body) == TermsNotAccepted && PostStatus(Post(body)) == 400
  {
    ZeroAndFalseArePresent("terms_accepted", body);
    CompleteIffNoneMissing(body);
  }

  /** In an accepted body every copied key keeps the body's value (and is
      absent when the body lacks it), and every defaulted key is set: to
      the body's value when truthy, otherwise to [] or 0. */
  lemma PreparedInputFields(body: Body, input: map<string, Json>)
    requires Post(body) == CreateBooking(input)
    ensures forall k :: k in CopiedFields ==> (k in input <==> k in body)
    ensures forall k :: k in CopiedFields && k in body ==> input[k] == body[k]
    ensures forall k :: k in DefaultedFields ==>
      k in input && input[k] == (if Truthy(Lookup(body, k)) then body[k] else DefaultedFields[k])
  {
    assert input == PrepareInput(body);
    FieldGroupsDisjoint();
  }

  /** No key is both copied and defaulted. */
  lemma FieldGroupsDisjoint()
    ensures forall k :: k in CopiedFields ==> k !in DefaultedFields
  {
    forall k | k in CopiedFields ensures k !in DefaultedFields.Keys {
      assert k[0] != 's' || k == "selected_package" || k == "selected_package_id";
    }
  }

  /** An absent additional_functions or video_addons becomes [], absent crew
      totals become 0. */
  lemma AbsentOptionalsDefault(body: Body, input: map<string, Json>)
    requires Post(body) == CreateBooking(input)
    requires "additional_functions" !in body && "video_addons" !in body
    requires "total_photographers" !in body && "total_cinematographers" !in body
    ensures input["additional_functions"] == JArr([]) && input["video_addons"] == JArr([])
    ensures input["total_photographers"] == JNum(0.0) && input["total_cinematographers"] == JNum(0.0)
  {
    PreparedInputFields(body, input);
  }

  /** selected_functions: false is present for the missing-field check but
      falsy for the default, so an accepted body stores it as []. */
  lemma FalseFunctionsStoredEmpty(body: Body, input: map<string, Json>)
    requires body["selected_functions" := JBool(false)] == body
    requires Post(body) == CreateBooking(input)
    ensures input["selected_functions"] == JArr([])
  {
    assert "selected_functions" in body;
  }

  /** The message lists the missing fields with ", " between them. */
  lemma MissingMessageExample()
    ensures PostError(MissingRequired(["client_name", "terms_accepted"]))
         == "Missing required fields: client_name, terms_accepted"
  {
  }

  // ---------------------------------------------------------------
  // GET
  // ---------------------------------------------------------------

  /** A given reference decides the answer: the phone parameter and the
      phone lookup are never consulted, and an unknown reference is 404. */
  lemma GetPrefersReference(phone: Option<string>, reference: Option<string>,
                            byReference: string -> Option<Json>, byPhone: string -> seq<Json>,
                            otherByPhone: string -> seq<Json>)
    requires Given(reference)
    ensures Get(phone, reference, byReference, byPhone) == Get(None, reference, byReference, otherByPhone)
    ensures GetStatus(Get(phone, reference, byReference, byPhone)) == 404 <==> byReference(reference.value).None?
  {
  }

  /** Without a usable reference a given phone is looked up. */
  lemma GetFallsBackToPhone(phone: Option<string>, reference: Option<string>,
                            byReference: string -> Option<Json>, byPhone: string -> seq<Json>)
    requires !Given(reference) && Given(phone)
    ensures Get(phone, reference, byReference, byPhone) == BookingsByPhone(byPhone(phone.value))
  {
  }

  /** With neither parameter given the answer is 400; it is never 400 when
      one of them is given. */
  lemma GetBadRequestIff(phone: Option<string>, reference: Option<string>,
                         byReference: string -> Option<Json>, byPhone: string -> seq<Json>)
    ensures GetStatus(Get(phone, reference, byReference, byPhone)) == 400 <==> !Given(reference) && !Given(phone)
  {
  }
}
