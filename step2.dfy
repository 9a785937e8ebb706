/** Step 2 of the wizard: the time helpers that turn start/end clock
    strings into a duration and back, and the two toggle handlers that
    add or remove a function instance in the draft. */
module WizardStep2 {
  import opened Types
  import opened Money
  import opened Seqs
  import opened Store

  // ---------------------------------------------------------------
  // Clock strings
  // ---------------------------------------------------------------

  predicate IsDigit(c: char) { '0' <= c <= '9' }

  function DigitValue(c: char): int { c as int - '0' as int }

  function Digit(n: int): char
    requires 0 <= n < 10
  {
    ('0' as int + n) as char
  }

  /** The "HH:MM" text a time input produces. */
  predicate IsClock(s: string) {
    |s| == 5 && IsDigit(s[0]) && IsDigit(s[1]) && s[2] == ':' && IsDigit(s[3]) && IsDigit(s[4])
  }

  function ClockHour(s: string): int
    requires IsClock(s)
  {
    DigitValue(s[0]) * 10 + DigitValue(s[1])
  }

  function ClockMinute(s: string): int
    requires IsClock(s)
  {
    DigitValue(s[3]) * 10 + DigitValue(s[4])
  }

  /** A clock string naming a time of day, 00:00 to 23:59. */
  predicate IsTimeOfDay(s: string) {
    IsClock(s) && ClockHour(s) < 24 && ClockMinute(s) < 60
  }

  /** hour * 60 + minute of a split clock string. */
  function ToMinutes(s: string): (m: int)
    requires IsClock(s)
    ensures 0 <= m <= 99 * 60 + 99
    ensures IsTimeOfDay(s) ==> m < 24 * 60
  {
    ClockHour(s) * 60 + ClockMinute(s)
  }

  /** A start or end time as the page receives it: empty or a clock string. */
  predicate IsTimeField(s: string) { s == "" || IsClock(s) }

  // ---------------------------------------------------------------
  // Number formatting
  // ---------------------------------------------------------------

  /** String(n) for a natural number. */
  function NatToString(n: nat): (s: string)
    ensures |s| >= 1
  {
    if n < 10 then [Digit(n)] else NatToString(n / 10) + [Digit(n % 10)]
  }

  /** String(n) for an integer. */
  function IntToString(n: int): (s: string)
    ensures |s| >= 1
  {
    if n < 0 then "-" + NatToString(-n) else NatToString(n)
  }

  /** s.padStart(2, '0'). */
  function PadTwo(s: string): (r: string)
    ensures |r| >= 2
    ensures |s| >= 2 ==> r == s
  {
    if |s| == 0 then "00" else if |s| == 1 then "0" + s else s
  }

  /** JavaScript's a % b, which keeps the sign of a. */
  function JsRem(a: int, b: int): (r: int)
    requires b > 0
    ensures a >= 0 ==> 0 <= r < b
    ensures a < 0 ==> -b < r <= 0
    ensures a == b * (if a >= 0 then a / b else -((-a) / b)) + r
  {
    if a >= 0 then a % b
    else
      assert -a == b * ((-a) / b) + (-a) % b;
      -((-a) % b)
  }

  // ---------------------------------------------------------------
  // calculateDuration / calculateEndTime
  // ---------------------------------------------------------------

  /** calculateDuration: hours from start to end, wrapping past midnight,
      rounded to one decimal place. */
  function CalculateDuration(startTime: string, endTime: string): (r: real)
    requires IsTimeField(startTime) && IsTimeField(endTime)
    ensures startTime == "" || endTime == "" ==> r == 0.0
  {
    if startTime == "" || endTime == "" then 0.0
    else
      var startMinutes := ToMinutes(startTime);
      var endMinutes := if ToMinutes(endTime) < startMinutes then ToMinutes(endTime) + 24 * 60
                        else ToMinutes(endTime);
      var durationMinutes := endMinutes - startMinutes;
      Round(durationMinutes as real / 60.0 * 10.0) as real / 10.0
  }

  /** calculateEndTime: the start plus the duration, as zero-padded "HH:MM"
      with the hour taken modulo 24. The duration must be a whole number of
      minutes (see README). */
  function CalculateEndTime(startTime: string, durationHours: real): (r: string)
    requires IsTimeField(startTime)
    requires IsWhole(durationHours * 60.0)
    ensures r == "" <==> startTime == "" || durationHours == 0.0
  {
    if startTime == "" || durationHours == 0.0 then ""
    else
      var endMinutes := ToMinutes(startTime) + (durationHours * 60.0).Floor;
      var endHour := JsRem(endMinutes / 60, 24);
      var endMin := JsRem(endMinutes, 60);
      PadTwo(IntToString(endHour)) + ":" + PadTwo(IntToString(endMin))
  }

  // ---------------------------------------------------------------
  // The toggle handlers
  // ---------------------------------------------------------------

  function SelFunctionIdOf(f: SelectedFunction): string { f.functionId }

  const DefaultStartTime: string := "07:30"

  /** `${functionId}-${Date.now()}`, with the clock reading as a parameter. */
  function InstanceId(functionId: string, now: nat): string {
    functionId + "-" + NatToString(now)
  }

  /** The entry a toggle adds for catalogue function `ef`. */
  function NewEntry(functionId: string, now: nat, ef: EventFunction): SelectedFunction
    requires IsWhole(ef.defaultHours * 60.0)
  {
    SelectedFunction(
      InstanceId(functionId, now), functionId, ef.labelText, "",
      DefaultStartTime, CalculateEndTime(DefaultStartTime, ef.defaultHours),
      ef.defaultHours, ef.includedPhotographers, ef.includedCinematographers)
  }

  /** Every catalogue function's default length is a whole number of minutes. */
  predicate WholeMinuteDefaults(catalogue: seq<EventFunction>) {
    forall i :: 0 <= i < |catalogue| ==> IsWhole(catalogue[i].defaultHours * 60.0)
  }

  /** The list a toggle leaves: the first entry carrying `functionId` is
      removed by its instance id when there is one; otherwise the catalogue
      function with that id is appended as a new entry; an id unknown to
      the catalogue changes nothing. */
  function ToggledSelection(fs: seq<SelectedFunction>, catalogue: seq<EventFunction>,
                            functionId: string, now: nat): seq<SelectedFunction>
    requires WholeMinuteDefaults(catalogue)
  {
    match Find(fs, SelFunctionIdOf, functionId)
    case Some(f) => RemovedById(fs, f.id)
    case None =>
      match Find(catalogue, PricingFunctionIdOf, functionId)
      case None => fs
      case Some(ef) => fs + [NewEntry(functionId, now, ef)]
  }

  function PricingFunctionIdOf(ef: EventFunction): string { ef.id }

  /** handleFunctionToggle over the main list; the catalogue is the main
      functions followed by the other functions. */
  method HandleFunctionToggle(store: BookingStore, mainFunctions: seq<EventFunction>,
                              otherFunctions: seq<EventFunction>, functionId: string, now: nat)
    requires WholeMinuteDefaults(mainFunctions + otherFunctions)
    modifies store
    ensures store.Snapshot() == old(store.Snapshot()).(selectedFunctions :=
      ToggledSelection(old(store.selectedFunctions), mainFunctions + otherFunctions, functionId, now))
  {
    var allFunctions := mainFunctions + otherFunctions;
    var isSelected := HasKey(store.selectedFunctions, SelFunctionIdOf, functionId);
    if isSelected {
      var func := Find(store.selectedFunctions, SelFunctionIdOf, functionId);
      if func.Some? {
        store.RemoveSelectedFunction(func.value.id);
      }
    } else {
      var funcConfig := Find(allFunctions, PricingFunctionIdOf, functionId);
      if funcConfig.None? {
        return;
      }
      store.AddSelectedFunction(NewEntry(functionId, now, funcConfig.value));
    }
  }

  /** handleAdditionalToggle: the same rule over the additional list and
      the additional-function catalogue. */
  method HandleAdditionalToggle(store: BookingStore, additionalFunctionTypes: seq<EventFunction>,
                                functionId: string, now: nat)
    requires WholeMinuteDefaults(additionalFunctionTypes)
    modifies store
    ensures store.Snapshot() == old(store.Snapshot()).(additionalFunctions :=
      ToggledSelection(old(store.additionalFunctions), additionalFunctionTypes, functionId, now))
  {
    var isSelected := HasKey(store.additionalFunctions, SelFunctionIdOf, functionId);
    if isSelected {
      var func := Find(store.additionalFunctions, SelFunctionIdOf, functionId);
      if func.Some? {
        store.RemoveAdditionalFunction(func.value.id);
      }
    } else {
      var funcConfig := Find(additionalFunctionTypes, PricingFunctionIdOf, functionId);
      if funcConfig.None? {
        return;
      }
      store.AddAdditionalFunction(NewEntry(functionId, now, funcConfig.value));
    }
  }
}
