/** What step 2's time helpers and toggle handlers promise. */
module WizardStep2Properties {
  import opened Types
  import opened Money
  import opened Seqs
  import opened Store
  import opened StoreProperties
  import opened WizardStep2

  // ---------------------------------------------------------------
  // calculateDuration
  // ---------------------------------------------------------------

  /** Minutes from start to end on a 24-hour dial: the independent reading
      of "end earlier than start means the next day". */
  function ElapsedMinutes(startTime: string, endTime: string): (m: int)
    requires IsClock(startTime) && IsClock(endTime)
    ensures 0 <= m < 24 * 60
  {
    (ToMinutes(endTime) - ToMinutes(startTime)) % (24 * 60)
  }

  /** For two times of day the duration is the elapsed time on the dial,
      in hours rounded to one decimal. */
  lemma DurationIsElapsedTime(startTime: string, endTime: string)
    requires IsTimeOfDay(startTime) && IsTimeOfDay(endTime)
    ensures CalculateDuration(startTime, endTime) == Round(ElapsedMinutes(startTime, endTime) as real / 6.0) as real / 10.0
  {
    var s := ToMinutes(startTime);
    var e := ToMinutes(endTime);
    var d := if e < s then e + 24 * 60 - s else e - s;
    assert 0 <= d < 24 * 60;
    assert d == (e - s) % (24 * 60);
    assert d as real / 60.0 * 10.0 == d as real / 6.0;
  }

  /** Between two times of day the duration is never negative. */
  lemma DurationNonNegative(startTime: string, endTime: string)
    requires (startTime == "" || IsTimeOfDay(startTime)) && (endTime == "" || IsTimeOfDay(endTime))
    ensures CalculateDuration(startTime, endTime) >= 0.0
  {
    if startTime != "" && endTime != "" {
      var s := ToMinutes(startTime);
      var e := ToMinutes(endTime);
      var d := if e < s then e + 24 * 60 - s else e - s;
      assert d >= 0;
      RoundMonotone(0.0, d as real / 60.0 * 10.0);
      assert Round(0.0) == 0;
    }
  }

  /** Between two times of day the duration is at most 24 hours. */
  lemma DurationAtMostADay(startTime: string, endTime: string)
    requires (startTime == "" || IsTimeOfDay(startTime)) && (endTime == "" || IsTimeOfDay(endTime))
    ensures CalculateDuration(startTime, endTime) <= 24.0
  {
    if startTime != "" && endTime != "" {
      var s := ToMinutes(startTime);
      var e := ToMinutes(endTime);
      var d := if e < s then e + 24 * 60 - s else e - s;
      assert d < 24 * 60;
      RoundMonotone(d as real / 60.0 * 10.0, 240.0);
      RoundWhole(240.0);
    }
  }

  /** The duration has at most one decimal place. */
  lemma DurationHasOneDecimal(startTime: string, endTime: string)
    requires IsTimeField(startTime) && IsTimeField(endTime)
    ensures IsWhole(CalculateDuration(startTime, endTime) * 10.0)
  {
    if startTime != "" && endTime != "" {
      var s := ToMinutes(startTime);
      var e := ToMinutes(endTime);
      var d := if e < s then e + 24 * 60 - s else e - s;
      var n := Round(d as real / 60.0 * 10.0);
      assert CalculateDuration(startTime, endTime) == n as real / 10.0;
      assert n as real / 10.0 * 10.0 == n as real;
    }
  }

  // ---------------------------------------------------------------
  // calculateEndTime
  // ---------------------------------------------------------------

  /** A number below 100, formatted and padded, is two digits that read back
      as the number. */
  lemma TwoDigitText(n: int)
    requires 0 <= n < 100
    ensures |PadTwo(IntToString(n))| == 2
    ensures IsDigit(PadTwo(IntToString(n))[0]) && IsDigit(PadTwo(IntToString(n))[1])
    ensures DigitValue(PadTwo(IntToString(n))[0]) * 10 + DigitValue(PadTwo(IntToString(n))[1]) == n
  {
    if n >= 10 {
      assert NatToString(n) == NatToString(n / 10) + [Digit(n % 10)];
      assert NatToString(n / 10) == [Digit(n / 10)];
    }
  }

  /** An hour below 24 and a minute below 60, formatted and joined by a
      colon, are a time of day that reads back as those minutes. */
  lemma ClockText(h: int, mi: int)
    requires 0 <= h < 24 && 0 <= mi < 60
    ensures IsTimeOfDay(PadTwo(IntToString(h)) + ":" + PadTwo(IntToString(mi)))
    ensures ToMinutes(PadTwo(IntToString(h)) + ":" + PadTwo(IntToString(mi))) == 60 * h + mi
  {
    TwoDigitText(h);
    TwoDigitText(mi);
    var ht := PadTwo(IntToString(h));
    var mt := PadTwo(IntToString(mi));
    var t := ht + ":" + mt;
    assert t[0] == ht[0] && t[1] == ht[1] && t[2] == ':' && t[3] == mt[0] && t[4] == mt[1];
    assert ClockHour(t) == h;
    assert ClockMinute(t) == mi;
  }

  /** The hour of the day and the minute of the hour of a non-negative
      minute count make up that count modulo a day. */
  lemma DayMinutes(em: int)
    requires em >= 0
    ensures 0 <= (em / 60) % 24 < 24 && 0 <= em % 60 < 60
    ensures 60 * ((em / 60) % 24) + em % 60 == em % 1440
  {
    var q := em / 60;
    var h := q % 24;
    var mi := em % 60;
    assert em == 60 * q + mi;
    assert q == 24 * (q / 24) + h;
    assert em == 1440 * (q / 24) + (60 * h + mi);
    assert 0 <= 60 * h + mi < 1440;
  }

  /** For a non-negative end the text is a time of day, zero-padded, whose
      minutes are the end minutes modulo a day; in particular the hour is
      in 0..23. */
  lemma EndTimeIsTimeOfDay(startTime: string, durationHours: real)
    requires IsClock(startTime)
    requires IsWhole(durationHours * 60.0)
    requires durationHours != 0.0
    requires ToMinutes(startTime) + (durationHours * 60.0).Floor >= 0
    ensures IsTimeOfDay(CalculateEndTime(startTime, durationHours))
    ensures ToMinutes(CalculateEndTime(startTime, durationHours))
         == (ToMinutes(startTime) + (durationHours * 60.0).Floor) % (24 * 60)
  {
    var em := ToMinutes(startTime) + (durationHours * 60.0).Floor;
    DayMinutes(em);
    var h := (em / 60) % 24;
    var mi := em % 60;
    assert JsRem(em / 60, 24) == h;
    assert JsRem(em, 60) == mi;
    ClockText(h, mi);
    assert PadTwo(IntToString(h)) + ":" + PadTwo(IntToString(mi)) == CalculateEndTime(startTime, durationHours);
  }

  /** A duration in tenths of an hour is a whole number of minutes. */
  lemma TenthsAreWholeMinutes(durationHours: real)
    requires IsWhole(durationHours * 10.0)
    ensures IsWhole(durationHours * 60.0)
    ensures (durationHours * 60.0).Floor == 6 * (durationHours * 10.0).Floor
  {
    var tenths := (durationHours * 10.0).Floor;
    assert durationHours * 60.0 == (6 * tenths) as real;
  }

  /** Moving k minutes forward on the dial, 0 < k < 1440, and measuring
      the way calculateDuration does gives k back. */
  lemma ElapsedAfterShift(s: int, k: int)
    requires 0 <= s < 1440 && 0 < k < 1440
    ensures var e := (s + k) % 1440;
      (if e < s then e + 1440 else e) - s == k
  {
    if s + k >= 1440 {
      assert (s + k) % 1440 == s + k - 1440;
    }
  }

  /** Rounding the minutes of a duration in tenths back to tenths is exact. */
  lemma TenthsRoundBack(durationHours: real)
    requires IsWhole(durationHours * 10.0)
    ensures IsWhole(durationHours * 60.0)
    ensures Round((durationHours * 60.0).Floor as real / 60.0 * 10.0) as real / 10.0 == durationHours
  {
    TenthsAreWholeMinutes(durationHours);
    var tenths := (durationHours * 10.0).Floor;
    var k := (durationHours * 60.0).Floor;
    assert k as real / 60.0 * 10.0 == tenths as real;
    RoundWhole(tenths as real);
  }

  /** Formatting an end time and measuring back from the same start gives
      the duration again, for any one-decimal duration shorter than a day. */
  lemma EndTimeRoundTrip(startTime: string, durationHours: real)
    requires IsTimeOfDay(startTime)
    requires 0.0 < durationHours < 24.0
    requires IsWhole(durationHours * 10.0)
    ensures IsWhole(durationHours * 60.0)
    ensures IsTimeOfDay(CalculateEndTime(startTime, durationHours))
    ensures CalculateDuration(startTime, CalculateEndTime(startTime, durationHours)) == durationHours
  {
    TenthsAreWholeMinutes(durationHours);
    TenthsRoundBack(durationHours);
    var k := (durationHours * 60.0).Floor;
    assert 0 < k < 1440;
    EndTimeIsTimeOfDay(startTime, durationHours);
    var endTime := CalculateEndTime(startTime, durationHours);
    var s := ToMinutes(startTime);
    ElapsedAfterShift(s, k);
  }

  /** A negative duration that ends before midnight of the previous day is
      formatted with JavaScript's signed remainder: the hour is not in 0..23. */
  lemma NegativeEndExample()
    ensures CalculateEndTime("00:30", -1.0) == "-1:-30"
  {
    assert ToMinutes("00:30") == 30;
    assert (-1.0 * 60.0).Floor == -60;
    assert JsRem(-30 / 60, 24) == -1;
    assert JsRem(-30, 60) == -30;
    assert NatToString(30) == "30";
  }

  /** Worked values: a default 8-hour function from 07:30, and a night
      event crossing midnight. */
  lemma TimeExamples()
    ensures CalculateEndTime("07:30", 8.0) == "15:30"
    ensures CalculateDuration("22:00", "02:00") == 4.0
    ensures CalculateDuration("07:30", "07:30") == 0.0
  {
    assert ToMinutes("07:30") == 450;
    assert JsRem(930 / 60, 24) == 15;
    assert JsRem(930, 60) == 30;
    assert NatToString(15) == "15";
    assert NatToString(30) == "30";
    assert ToMinutes("22:00") == 1320;
    assert ToMinutes("02:00") == 120;
    assert Round(240 as real / 60.0 * 10.0) == 40;
  }

  // ---------------------------------------------------------------
  // The toggle rule
  // ---------------------------------------------------------------

  /** Toggling a selected functionId removes, by instance id, the first
      entry that carries it. */
  lemma ToggleSelectedRemovesFirst(fs: seq<SelectedFunction>, catalogue: seq<EventFunction>,
                                   functionId: string, now: nat)
    requires WholeMinuteDefaults(catalogue)
    requires HasKey(fs, SelFunctionIdOf, functionId)
    ensures 0 <= FindIndex(fs, SelFunctionIdOf, functionId)
    ensures ToggledSelection(fs, catalogue, functionId, now)
         == RemovedById(fs, fs[FindIndex(fs, SelFunctionIdOf, functionId)].id)
  {
    var j :| 0 <= j < |fs| && SelFunctionIdOf(fs[j]) == functionId;
  }

  /** Toggling an unselected functionId that the catalogue knows appends one
      entry with the instance id built from the functionId and the clock, the 07:30 default start, the end time computed from the
      default hours, those hours as duration and the included crew. */
  lemma ToggleAddsEntry(fs: seq<SelectedFunction>, catalogue: seq<EventFunction>,
                        functionId: string, now: nat, ef: EventFunction)
    requires WholeMinuteDefaults(catalogue)
    requires !HasKey(fs, SelFunctionIdOf, functionId)
    requires Find(catalogue, PricingFunctionIdOf, functionId) == Some(ef)
    ensures IsWhole(ef.defaultHours * 60.0)
    ensures var r := ToggledSelection(fs, catalogue, functionId, now);
      |r| == |fs| + 1 && r[..|fs|] == fs &&
      r[|fs|].id == InstanceId(functionId, now) &&
      r[|fs|].functionId == functionId && r[|fs|].name == ef.labelText && r[|fs|].date == "" &&
      r[|fs|].startTime == "07:30" && r[|fs|].endTime == CalculateEndTime("07:30", ef.defaultHours) &&
      r[|fs|].duration == ef.defaultHours &&
      r[|fs|].photographers == ef.includedPhotographers &&
      r[|fs|].cinematographers == ef.includedCinematographers
  {
    var i := FindIndex(catalogue, PricingFunctionIdOf, functionId);
    assert catalogue[i] == ef;
    var r := ToggledSelection(fs, catalogue, functionId, now);
    assert r == fs + [NewEntry(functionId, now, ef)];
    assert r[..|fs|] == fs;
  }

  /** Toggling a functionId that is neither selected nor in the catalogue
      changes nothing. */
  lemma ToggleUnknownNoop(fs: seq<SelectedFunction>, catalogue: seq<EventFunction>,
                          functionId: string, now: nat)
    requires WholeMinuteDefaults(catalogue)
    requires !HasKey(fs, SelFunctionIdOf, functionId)
    requires forall i :: 0 <= i < |catalogue| ==> catalogue[i].id != functionId
    ensures ToggledSelection(fs, catalogue, functionId, now) == fs
  {
    forall i | 0 <= i < |catalogue| ensures PricingFunctionIdOf(catalogue[i]) != functionId {
    }
  }

  /** Toggling an unselected catalogue function on and then off again
      restores the list, provided the new instance id is fresh. */
  lemma ToggleTwiceRestores(fs: seq<SelectedFunction>, catalogue: seq<EventFunction>,
                            functionId: string, now: nat, later: nat)
    requires WholeMinuteDefaults(catalogue)
    requires !HasKey(fs, SelFunctionIdOf, functionId)
    requires HasKey(catalogue, PricingFunctionIdOf, functionId)
    requires forall i :: 0 <= i < |fs| ==> fs[i].id != InstanceId(functionId, now)
    ensures ToggledSelection(ToggledSelection(fs, catalogue, functionId, now), catalogue, functionId, later) == fs
  {
    var ef := Find(catalogue, PricingFunctionIdOf, functionId).value;
    var e := NewEntry(functionId, now, ef);
    var once := fs + [e];
    assert ToggledSelection(fs, catalogue, functionId, now) == once;
    forall i | 0 <= i < |fs| ensures SelFunctionIdOf(once[i]) != functionId {
      assert once[i] == fs[i];
    }
    assert once[|fs|] == e;
    assert FindIndex(once, SelFunctionIdOf, functionId) == |fs|;
    AddThenRemoveRestores(fs, e);
  }
}
