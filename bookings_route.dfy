/** The decision logic of the bookings endpoint: which POST bodies are
    rejected and why, how an accepted body is turned into a booking input,
    and which lookup a GET query selects. The database calls are
    parameters; HTTP encoding is reduced to a status code. */
module BookingsRoute {
  import opened Seqs
  import opened JsText

  /** A parsed JSON value. */
  datatype Json =
    | JNull
    | JBool(b: bool)
    | JNum(n: real)
    | JStr(s: string)
    | JArr(items: seq<Json>)
    | JObj(fields: map<string, Json>)

  /** A request body: a JSON object. A key it lacks is `undefined`. */
  type Body = map<string, Json>

  function Lookup(body: Body, key: string): Option<Json> {
    if key in body then Some(body[key]) else None
  }

  /** JavaScript truthiness of a property read; `undefined` is None. */
  predicate Truthy(v: Option<Json>) {
    match v
    case None => false
    case Some(JNull) => false
    case Some(JBool(b)) => b
    case Some(JNum(n)) => n != 0.0
    case Some(JStr(s)) => s != ""
    case Some(JArr(_)) => true
    case Some(JObj(_)) => true
  }

  // ---------------------------------------------------------------
  // The required-field check
  // ---------------------------------------------------------------

  const RequiredFields: seq<string> := [
    "client_name", "client_phone", "booking_type", "event_date",
    "selected_functions", "album_type", "album_pages", "total_price",
    "advance_amount", "balance_amount", "digital_signature", "terms_accepted"]

  /** The predicate of the missing-field filter. */
  predicate IsMissing(field: string, value: Option<Json>) {
    match value
    case None => true
    case Some(JNull) => true
    case Some(JStr(s)) => Trim(s) == ""
    case Some(JArr(xs)) => field == "selected_functions" && |xs| == 0
    case Some(_) => false
  }

  /** fields.filter(field => IsMissing(field, body[field])), in order. */
  function MissingAmong(fields: seq<string>, body: Body): (r: seq<string>)
    ensures |r| <= |fields|
  {
    if |fields| == 0 then []
    else
      var rest := MissingAmong(fields[..|fields| - 1], body);
      var f := fields[|fields| - 1];
      if IsMissing(f, Lookup(body, f)) then rest + [f] else rest
  }

  function MissingFields(body: Body): seq<string> {
    MissingAmong(RequiredFields, body)
  }

  /** missingFields.join(', '). */
  function Join(parts: seq<string>, sep: string): string {
    if |parts| == 0 then ""
    else if |parts| == 1 then parts[0]
    else Join(parts[..|parts| - 1], sep) + sep + parts[|parts| - 1]
  }

  // ---------------------------------------------------------------
  // POST
  // ---------------------------------------------------------------

  /** The keys copied from the body into the booking input unchanged. */
  const CopiedFields: set<string> := {
    "client_name", "client_phone", "client_whatsapp", "client_email",
    "client_home_address", "client_current_location",
    "booking_type", "event_location", "event_date", "guest_count", "budget_range",
    "main_event_start_time", "main_event_end_time",
    "album_type", "album_pages", "complimentary_item",
    "selected_package", "selected_package_id", "total_price", "advance_amount",
    "balance_amount", "pricing_breakdown", "digital_signature", "terms_accepted"}

  /** The keys written as `body.key || default`, with their defaults. */
  const DefaultedFields: map<string, Json> := map[
    "selected_functions" := JArr([]),
    "additional_functions" := JArr([]),
    "total_photographers" := JNum(0.0),
    "total_cinematographers" := JNum(0.0),
    "video_addons" := JArr([])]

  /** `value || fallback`. */
  function OrElse(value: Option<Json>, fallback: Json): Json {
    if Truthy(value) then value.value else fallback
  }

  /** The bookingInput object: copied keys keep the body's value (and stay
      undefined when the body lacks them); defaulted keys are always set. */
  function PrepareInput(body: Body): map<string, Json> {
    map k | k in (CopiedFields * body.Keys) + DefaultedFields.Keys ::
      if k in DefaultedFields then OrElse(Lookup(body, k), DefaultedFields[k]) else body[k]
  }

  datatype PostOutcome =
    | MissingRequired(fields: seq<string>)
    | TermsNotAccepted
    | CreateBooking(input: map<string, Json>)

  /** The early-return chain of POST up to the database call. */
  function Post(body: Body): PostOutcome {
    var missing := MissingFields(body);
    if |missing| > 0 then MissingRequired(missing)
    else if !Truthy(Lookup(body, "terms_accepted")) then TermsNotAccepted
    else CreateBooking(PrepareInput(body))
  }

  /** The status each outcome is answered with; a created booking is 201. */
  function PostStatus(o: PostOutcome): int {
    match o
    case MissingRequired(_) => 400
    case TermsNotAccepted => 400
    case CreateBooking(_) => 201
  }

  function PostError(o: PostOutcome): string {
    match o
    case MissingRequired(fields) => "Missing required fields: " + Join(fields, ", ")
    case TermsNotAccepted => "Terms and conditions must be accepted"
    case CreateBooking(_) => ""
  }

  // ---------------------------------------------------------------
  // GET
  // ---------------------------------------------------------------

  datatype GetOutcome =
    | BookingFound(booking: Json)
    | BookingNotFound
    | BookingsByPhone(bookings: seq<Json>)
    | NoQuery

  /** searchParams.get(name) is null or a string; a string is truthy when
      it is not empty. */
  predicate Given(param: Option<string>) {
    param.Some? && param.value != ""
  }

  /** GET: a given reference is looked up first; otherwise a given phone;
      otherwise the query is rejected. The two lookups are parameters. */
  function Get(phone: Option<string>, reference: Option<string>,
               byReference: string -> Option<Json>, byPhone: string -> seq<Json>): GetOutcome
  {
    if Given(reference) then
      match byReference(reference.value)
      case None => BookingNotFound
      case Some(b) => BookingFound(b)
    else if Given(phone) then BookingsByPhone(byPhone(phone.value))
    else NoQuery
  }

  function GetStatus(o: GetOutcome): int {
    match o
    case BookingFound(_) => 200
    case BookingNotFound => 404
    case BookingsByPhone(_) => 200
    case NoQuery => 400
  }
}
