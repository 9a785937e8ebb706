# Event booking: pricing engine, booking draft and wizard rules

This project models the core of an event-photography booking wizard.

**The pricing engine.** It prices:

- the functions (ceremonies) a client selects, with an extra-hours charge above each function's default length and a flat fee for every crew member beyond those included;
- a photo album, with an extra-pages charge and a double-album multiplier;
- video add-ons.

It then adds tax and splits the total into an advance and a balance.

**The booking draft.** A single mutable state that the wizard's steps update: client details, selected functions, crew, album, add-ons and the chosen package with its advance/balance split.

**Smaller pieces that feed the engine:**

- the step-2 time helpers (duration from two clock times, end time from a start and a duration) and the toggle handlers that add or remove a function;
- the two counters (album pages, crew size);
- the form schemas;
- the bookings endpoint's required-field check, its terms check, the defaults it applies and its GET dispatch;
- the two folds that turn configuration records from the database into the album and pricing configurations.

**Numbers.** Money and hours are exact `real`s. Crew counts and page counts are `int`s. JavaScript's `Math.round(x)` is `Money.Round`, that is `⌊x + 1/2⌋`. JavaScript's `%` (the sign of the dividend) is `WizardStep2.JsRem`.

**Quirks kept as written:**

- extra pages are divided by a literal 10, and the configured page increment is never read;
- the multiplier applies only to the type string `"two-photobooks"`, while the wizard offers `"two-individual-photobooks"` (src/lib/constants.ts:72);
- the extra-crew cost is not rounded;
- the draft splits every price at a fixed 30 % rather than at the configured advance percentage.

Lemmas prove each of these.

**Modules**, each a separate file. `Money`, `Types`, `Seqs` and `JsText` keep their lemmas inside the module; each of the others is followed by a `…Properties` module that holds its lemmas:

- `Money` (rounding);
- `Types` (catalogue and breakdown records);
- `Seqs` (the `find`/`findIndex`/`filter` lookups by key);
- `JsText` (`String.prototype.trim`);
- `PricingService`;
- `Store` (class `BookingStore`);
- `WizardStep2`;
- `BookingsRoute`;
- `AlbumPanel`;
- `CrewCounter`;
- `Validations`;
- `AlbumConfigService`;
- `PricingConfigService`.

## Model

| member | source | states |
|---|---|---|
| Money.Round | src/services/pricing.service.ts:108 | Math.round lands within half a unit of its argument |
| Money.RoundWhole | src/services/pricing.service.ts:152-159 | rounding a whole number gives it back |
| Money.RoundMonotone | src/services/pricing.service.ts:152-159 | rounding preserves order |
| Money.Max0 | src/services/pricing.service.ts:107 | Math.max(0, x) is non-negative, at least x, and is x or 0 |
| Seqs.FindIndex | src/app/wizard/step-2/page.tsx:86-92 | the index found is the first with the key; -1 exactly when no entry has it |
| Seqs.Find | src/services/pricing.service.ts:82 | Array.find yields nothing exactly when no entry has the key, otherwise the first entry with that key (the one at FindIndex) |
| Seqs.Without | src/lib/store.ts:183-186 | filter by key keeps exactly the entries whose key differs |
| Seqs.WithoutAppend | src/lib/store.ts:183-186 | filtering distributes over concatenation |
| Seqs.WithoutAbsent | src/lib/store.ts:183-186 | filtering out an absent key changes nothing |
| Seqs.WithoutKeepsDistinct | src/lib/store.ts:200-208 | filtering keeps a duplicate-free list duplicate-free |
| JsText.TrimStartShape | src/app/api/bookings/route.ts:36 | trimming the front gives "" exactly on an all-whitespace string, otherwise a string starting with a non-space |
| JsText.TrimEndKeepsHead | src/app/api/bookings/route.ts:36 | trimming the end keeps a non-space first character |
| JsText.TrimEmptyIffAllWhite | src/app/api/bookings/route.ts:36 | value.trim() === '' exactly when every character is JavaScript whitespace |
| JsText.Trim | src/app/api/bookings/route.ts:36 | String.prototype.trim: JavaScript whitespace and line terminators removed at both ends; stated by TrimEmptyIffAllWhite |
| PricingService.FunctionsPricing | src/services/pricing.service.ts:76-81 | one line per selection, in the same order, each priced against its own definition |
| PricingService.DefinitionOf | src/services/pricing.service.ts:82 | the first definition whose id is the selection's functionId; stated by Seqs.Find |
| PricingService.ZeroLine | src/services/pricing.service.ts:84-103 | the line of a selection without a definition; stated by MissingDefinitionLine and LineMirrorsSelection |
| PricingService.PricedLine | src/services/pricing.service.ts:106-136 | the line of a selection against its definition; stated by OvertimeCharge, ExtraCrewCount, ExtraHoursIncrement and LineCostsAtLeastFlatPrice |
| PricingService.FunctionLine | src/services/pricing.service.ts:81-137 | the zero line when no definition matches, otherwise the priced line; stated by MissingDefinitionLine, NoOvertimeNoCharge and OvertimeCharge |
| PricingService.AlbumPricingOf | src/services/pricing.service.ts:143-173 | the album line from the configuration; stated by NoExtraPagesAtBase, ExtraPagesPerTen, AlbumMultiplier, AlbumIgnoresPagesIncrement and SingleAlbumTotal |
| PricingService.AlbumLine | src/services/pricing.service.ts:147-172 | the album line from the four configuration values read; stated by the same lemmas, through AlbumPricingOf |
| PricingService.AddonLines | src/services/pricing.service.ts:178-192 | never more lines than slugs; every line is the option of a selected slug, with its label and price |
| PricingService.OptionOf | src/services/pricing.service.ts:184 | the first add-on option whose value is the slug; stated by Seqs.Find |
| PricingService.IsKnownSlug | src/services/pricing.service.ts:185-191 | some option has the slug, so the slug survives the null filter; stated by AddonLinesKeepKnownSlugs |
| PricingService.FunctionsTotal | src/services/pricing.service.ts:52 | the reduce over the function lines; stated by FunctionsTotalAppend and FunctionsTotalNonNegative |
| PricingService.AddonsTotal | src/services/pricing.service.ts:53 | the reduce over the add-on lines; stated by AddonsTotalNonNegative |
| PricingService.PercentOf | src/services/pricing.service.ts:56-58 | Math.round(amount × percentage / 100); stated by PercentWithin, PercentNonNegative and StoreProperties.ThirtyPercentIsEngineDefault |
| PricingService.CalculatePricing | src/services/pricing.service.ts:20-71 | main lines then additional lines, the album line, the add-on lines; subtotal is their sum; tax and advance are the rounded percentages; total = subtotal + tax; advance + balance = total exactly |
| PricingProperties.FunctionsPricingAppend | src/services/pricing.service.ts:32 | pricing a concatenation prices each part in turn |
| PricingProperties.FunctionLinesByGroup | src/services/pricing.service.ts:32 | the breakdown's lines are the main lines followed by the additional lines |
| PricingProperties.LineMirrorsSelection | src/services/pricing.service.ts:84-104 | every line, priced or not, carries the selection's functionId, name, duration and both crew counts |
| PricingProperties.MissingDefinitionLine | src/services/pricing.service.ts:82-104 | an unknown functionId gives a line with every cost and every included count 0 |
| PricingProperties.NoOvertimeNoCharge | src/services/pricing.service.ts:107-108 | a duration within the default hours has no extra hours and no extra-hours cost |
| PricingProperties.OvertimeCharge | src/services/pricing.service.ts:107-108 | above the default the extra hours are the excess, charged at the rate and rounded |
| PricingProperties.ExtraHoursIncrement | src/services/pricing.service.ts:107-117 | beyond the default, extra duration raises the line total by the rounded extra-hours charge alone |
| PricingProperties.ExtraCrewCount | src/services/pricing.service.ts:111-114 | extra crew is the sum of the clamped excesses of each role, costed unrounded at the flat fee |
| PricingProperties.ExtraCrewIsRoleAgnostic | src/services/pricing.service.ts:111-117 | moving crew between the roles at the same total excess leaves the line total unchanged |
| PricingProperties.LineCostsAtLeastFlatPrice | src/services/pricing.service.ts:117 | with non-negative rate and fee a line costs at least its flat price |
| PricingProperties.NoExtraPagesAtBase | src/services/pricing.service.ts:148-152 | at or below the base page count there are no extra pages and no extra-pages cost |
| PricingProperties.ExtraPagesPerTen | src/services/pricing.service.ts:148-152 | for a whole base page count and a whole per-10-pages cost, 10k pages above the base are 10k extra pages costing k times the per-10-pages cost |
| PricingProperties.AlbumIgnoresPagesIncrement | src/services/pricing.service.ts:148-159 | the configured page increment never changes the album line |
| PricingProperties.AlbumMultiplier | src/services/pricing.service.ts:155-159 | the multiplier applies exactly for "two-photobooks", otherwise the factor is 1 |
| PricingProperties.WizardTwoBookTypePricedAsSingle | src/services/pricing.service.ts:158 | the wizard's "two-individual-photobooks" is priced as a single album |
| PricingProperties.SingleAlbumTotal | src/services/pricing.service.ts:155-159 | a single album with a whole base price costs that base price plus the extra-pages cost |
| PricingProperties.AddonLinesAppend | src/services/pricing.service.ts:182-191 | pricing add-ons distributes over concatenation, so input order is kept |
| PricingProperties.AddonLinesStep | src/services/pricing.service.ts:182-191 | the last slug adds its option's line when known and nothing otherwise |
| PricingProperties.AddonLinesKeepKnownSlugs | src/services/pricing.service.ts:182-191 | a selected slug appears among the lines exactly when an option has it |
| PricingProperties.AllKnownAddonsKeepOrder | src/services/pricing.service.ts:182-191 | when every slug is known, the lines are exactly the slugs, in order |
| PricingProperties.FunctionsTotalAppend | src/services/pricing.service.ts:52 | the function total of a concatenation is the sum of the parts' totals |
| PricingProperties.SubtotalByGroup | src/services/pricing.service.ts:32-56 | subtotal = main total + additional total + album + add-ons |
| PricingProperties.ZeroTaxTotalIsSubtotal | src/services/pricing.service.ts:56-57 | a tax percentage of 0 gives tax 0 and total = subtotal |
| PricingProperties.PercentWithin | src/services/pricing.service.ts:56-58 | a percentage in 0..100 of a whole, non-negative amount rounds to between 0 and the amount |
| PricingProperties.AdvanceWithinTotal | src/services/pricing.service.ts:58-59 | with an advance percentage in 0..100 and a whole, non-negative total, 0 ≤ advance ≤ total and the balance is non-negative |
| PricingProperties.NoSelectionBaseline | src/services/pricing.service.ts:20-71 | with nothing selected and a single album at the (whole) base page count, there are no function or add-on lines and the subtotal is the base price |
| PricingProperties.FunctionsTotalNonNegative | src/services/pricing.service.ts:52 | non-negative lines have a non-negative total |
| PricingProperties.AddonsTotalNonNegative | src/services/pricing.service.ts:54 | non-negative add-on prices have a non-negative total |
| PricingProperties.FunctionLinesNonNegative | src/services/pricing.service.ts:107-117 | with non-negative definitions and fee, every function line is non-negative |
| PricingProperties.AlbumNonNegative | src/services/pricing.service.ts:148-159 | with non-negative album settings, the album costs are non-negative |
| PricingProperties.AddonLinesNonNegative | src/services/pricing.service.ts:182-191 | non-negative option prices give non-negative lines |
| PricingProperties.NonNegativeTotals | src/services/pricing.service.ts:52-59 | non-negative catalogue data gives a non-negative subtotal, tax and total |
| PricingProperties.PercentNonNegative | src/services/pricing.service.ts:56-58 | a non-negative percentage of a non-negative amount rounds to at least 0 |
| PricingProperties.AlbumExample | src/services/pricing.service.ts:148-159 | 90 pages over 60 at 500 per ten: 30 extra pages costing 1500; single album 9500 with multiplier 1, "two-photobooks" round(9500 × 1.8) = 17100 |
| PricingProperties.FunctionExample | src/services/pricing.service.ts:107-117 | a worked function line with overtime and extra crew |
| PricingProperties.RoleAgnosticExample | src/services/pricing.service.ts:111-114 | with 2 + 2 included, a crew of 3 + 1 and a crew of 2 + 3 each count one extra head and cost the same |
| Store.UpdatedById | src/lib/store.ts:176-181 | same length and order; exactly the entries with the id are merged with the update, the others are kept |
| Store.MergeClientInfo | src/lib/store.ts:163 | `{ ...clientInfo, ...data }`: every field the update sets replaces the old one, the others are kept; used by UpdateClientInfo |
| Store.MergeEventDetails | src/lib/store.ts:168 | the same spread over the event details; used by UpdateEventDetails |
| Store.MergeFunction | src/lib/store.ts:179 | the same spread over one selected function; stated by UpdateKeepsIds, EmptyUpdateNoop |
| Store.MergeCrewSelection | src/lib/store.ts:190 | the same spread over the crew selection; used by UpdateCrewSelection |
| Store.MergeAlbumConfig | src/lib/store.ts:195 | the same spread over the album configuration; used by UpdateAlbumConfig |
| Store.RemovedById | src/lib/store.ts:185 | filter by instance id; stated by RemoveSplits, RemoveMembership and AddThenRemoveRestores |
| Store.Toggled | src/lib/store.ts:202-207 | the filtered list when the add-on is present, the list with it appended otherwise; stated by ToggledMembership, ToggleTwiceRestores, ToggleTwiceMovesToEnd and ToggledKeepsDistinct |
| Store.ThirtyPercentAdvance | src/lib/store.ts:230 | Math.round(price × 0.3); stated by ThirtyPercentIsEngineDefault, ThirtyPercentWithin and ThirtyPercentExample |
| Store.BookingStore.constructor | src/lib/store.ts:115-152 | the draft starts as initialState |
| Store.BookingStore.Load | src/lib/store.ts:260 | every field is set from the given state |
| Store.BookingStore.UpdateClientInfo | src/lib/store.ts:161-164 | the client details become the update merged over them; nothing else changes |
| Store.BookingStore.UpdateEventDetails | src/lib/store.ts:166-169 | the event details become the update merged over them; nothing else changes |
| Store.BookingStore.AddSelectedFunction | src/lib/store.ts:171-174 | the entry is appended to the main list; nothing else changes |
| Store.BookingStore.UpdateSelectedFunction | src/lib/store.ts:176-181 | the main list is updated by id; nothing else changes |
| Store.BookingStore.RemoveSelectedFunction | src/lib/store.ts:183-186 | the main entries with the id are dropped; the additional list and the rest are unchanged |
| Store.BookingStore.UpdateCrewSelection | src/lib/store.ts:188-191 | the crew becomes the update merged over it; nothing else changes |
| Store.BookingStore.UpdateAlbumConfig | src/lib/store.ts:193-196 | the album becomes the update merged over it; nothing else changes |
| Store.BookingStore.SetComplimentaryItem | src/lib/store.ts:198 | only the complimentary item is set |
| Store.BookingStore.ToggleVideoAddon | src/lib/store.ts:200-208 | the add-on list becomes the toggled list; nothing else changes |
| Store.BookingStore.AddAdditionalFunction | src/lib/store.ts:210-213 | the entry is appended to the additional list; nothing else changes |
| Store.BookingStore.UpdateAdditionalFunction | src/lib/store.ts:214-219 | the additional list is updated by id; nothing else changes |
| Store.BookingStore.RemoveAdditionalFunction | src/lib/store.ts:221-226 | the additional entries with the id are dropped; the main list and the rest are unchanged |
| Store.BookingStore.SelectPackage | src/lib/store.ts:228-239 | the package is recorded with total = price, advance = round(price × 0.3), balance = price − advance, so advance + balance = price |
| Store.BookingStore.SetPricingBreakdown | src/lib/store.ts:241-247 | the breakdown is stored and its total, advance and balance are copied |
| Store.BookingStore.CalculatePricing | src/lib/store.ts:249-258 | a total ≤ 0 changes nothing; otherwise the advance and balance are re-split at 30 % and the total is kept |
| Store.BookingStore.ResetForm | src/lib/store.ts:260 | the draft is initialState again |
| StoreProperties.ToggledMembership | src/lib/store.ts:200-208 | after a toggle the add-on is present exactly when it was absent; other slugs are unaffected |
| StoreProperties.ToggleTwiceRestores | src/lib/store.ts:200-208 | toggling an absent add-on twice restores the list exactly |
| StoreProperties.ToggleTwiceMovesToEnd | src/lib/store.ts:200-208 | toggling a present add-on twice moves it to the end |
| StoreProperties.ToggledKeepsDistinct | src/lib/store.ts:200-208 | a duplicate-free add-on list stays duplicate-free |
| StoreProperties.UpdateUnknownIdNoop | src/lib/store.ts:176-181 | an update for an id that no entry has changes nothing |
| StoreProperties.UpdateKeepsIds | src/lib/store.ts:176-181 | an update that does not set id keeps every instance id in place |
| StoreProperties.EmptyUpdateNoop | src/lib/store.ts:176-181 | an empty update changes nothing |
| StoreProperties.RemoveSplits | src/lib/store.ts:183-186 | removal distributes over concatenation, so the survivors keep their order |
| StoreProperties.RemoveMembership | src/lib/store.ts:183-186 | an entry survives removal exactly when its id differs |
| StoreProperties.AddThenRemoveRestores | src/lib/store.ts:171-186 | adding an entry with a fresh id and removing that id restores the list |
| StoreProperties.ThirtyPercentIsEngineDefault | src/lib/store.ts:230 | the hard-coded split equals the engine's advance at 30 % |
| StoreProperties.ThirtyPercentWithin | src/lib/store.ts:230-232 | for a non-negative price, 0 ≤ advance ≤ price |
| StoreProperties.ThirtyPercentExample | src/lib/store.ts:230 | worked splits: 25000 → 7500, 1 → 0, 5 → 2 (a half rounds up) |
| WizardStep2.ToMinutes | src/app/wizard/step-2/page.tsx:56-62 | hour × 60 + minute of a split clock string, below 1440 for a time of day |
| WizardStep2.JsRem | src/app/wizard/step-2/page.tsx:79 | JavaScript remainder: a = b × trunc(a / b) + r, with r of the sign of a and magnitude below b |
| WizardStep2.PadTwo | src/app/wizard/step-2/page.tsx:79-82 | padStart(2, '0') gives at least two characters and leaves two-character text alone |
| WizardStep2.CalculateDuration | src/app/wizard/step-2/page.tsx:53-69 | 0 when either time is empty |
| WizardStep2.CalculateEndTime | src/app/wizard/step-2/page.tsx:72-83 | "" exactly when the start is empty or the duration is 0 |
| WizardStep2.NatToString | src/app/wizard/step-2/page.tsx:79-82 | String(n) for a natural number, at least one character; stated by TwoDigitText |
| WizardStep2.IntToString | src/app/wizard/step-2/page.tsx:79-82 | String(n) for an integer, at least one character; stated by TwoDigitText and NegativeEndExample |
| WizardStep2.InstanceId | src/app/wizard/step-2/page.tsx:101 | the `${functionId}-${Date.now()}` instance id, with the clock reading as a parameter; stated by ToggleAddsEntry (the new entry's id) and used by ToggleTwiceRestores |
| WizardStep2.NewEntry | src/app/wizard/step-2/page.tsx:97-110 | the entry a toggle adds; stated by ToggleAddsEntry |
| WizardStep2.ToggledSelection | src/app/wizard/step-2/page.tsx:85-112 | the list a toggle leaves; stated by ToggleSelectedRemovesFirst, ToggleAddsEntry, ToggleUnknownNoop and ToggleTwiceRestores |
| WizardStep2.HandleFunctionToggle | src/app/wizard/step-2/page.tsx:85-112 | only the main list changes, to the toggled selection over the main and other catalogues |
| WizardStep2.HandleAdditionalToggle | src/app/wizard/step-2/page.tsx:114-140 | only the additional list changes, to the toggled selection over the additional catalogue |
| WizardStep2Properties.ElapsedMinutes | src/app/wizard/step-2/page.tsx:59-67 | the minutes from start to end on a 24-hour dial, in 0..1439 |
| WizardStep2Properties.DurationIsElapsedTime | src/app/wizard/step-2/page.tsx:59-68 | the duration is the elapsed dial time in hours, rounded to one decimal |
| WizardStep2Properties.DurationNonNegative | src/app/wizard/step-2/page.tsx:63-65 | the midnight wrap makes the duration never negative |
| WizardStep2Properties.DurationAtMostADay | src/app/wizard/step-2/page.tsx:63-68 | the duration is at most 24 hours |
| WizardStep2Properties.DurationHasOneDecimal | src/app/wizard/step-2/page.tsx:68 | ten times the duration is a whole number |
| WizardStep2Properties.TwoDigitText | src/app/wizard/step-2/page.tsx:79-82 | a number below 100, padded, is two digits that read back as the number |
| WizardStep2Properties.EndTimeIsTimeOfDay | src/app/wizard/step-2/page.tsx:77-82 | a non-negative end gives a zero-padded HH:MM with hour 0..23, at the end minutes mod 1440 |
| WizardStep2Properties.EndTimeRoundTrip | src/app/wizard/step-2/page.tsx:53-83 | for 0 < d < 24 in tenths, the duration from a start to its computed end time is d again |
| WizardStep2Properties.NegativeEndExample | src/app/wizard/step-2/page.tsx:77-82 | a negative end is formatted with negative parts: "00:30" − 1 h gives "-1:-30" |
| WizardStep2Properties.TimeExamples | src/app/wizard/step-2/page.tsx:53-83 | 07:30 + 8 h is 15:30; 22:00 to 02:00 is 4 h; equal times give 0 |
| WizardStep2Properties.ToggleSelectedRemovesFirst | src/app/wizard/step-2/page.tsx:86-92 | toggling a selected functionId leaves the list with the first entry carrying it removed by that entry's instance id (removeSelectedFunction drops every entry with that id) |
| WizardStep2Properties.ToggleAddsEntry | src/app/wizard/step-2/page.tsx:94-110 | toggling an unselected catalogue function appends one entry with id InstanceId(functionId, now), starting at 07:30, ending at the computed end, with the default hours and the included crew |
| WizardStep2Properties.ToggleUnknownNoop | src/app/wizard/step-2/page.tsx:94-95 | an id that is neither selected nor in the catalogue changes nothing |
| WizardStep2Properties.ToggleTwiceRestores | src/app/wizard/step-2/page.tsx:85-112 | toggling an unselected catalogue function on and off restores the list |
| BookingsRoute.MissingAmong | src/app/api/bookings/route.ts:32-39 | the filter never reports more fields than it checks |
| BookingsRoute.Truthy | src/app/api/bookings/route.ts:52 | JavaScript truthiness of a property read; stated by TermsFalseRejected and PreparedInputFields |
| BookingsRoute.IsMissing | src/app/api/bookings/route.ts:33-38 | the filter predicate; stated by ZeroAndFalseArePresent, EmptyArrayMissingOnlyForFunctions and StringMissingIffBlank |
| BookingsRoute.MissingFields | src/app/api/bookings/route.ts:17-39 | requiredFields filtered by the predicate; stated by MissingMembership, MissingAmongAppend and CompleteIffNoneMissing |
| BookingsRoute.Join | src/app/api/bookings/route.ts:45 | missingFields.join(sep); stated by MissingMessageExample |
| BookingsRoute.OrElse | src/app/api/bookings/route.ts:77-87 | `value || fallback`; stated by PreparedInputFields and FalseFunctionsStoredEmpty |
| BookingsRoute.PrepareInput | src/app/api/bookings/route.ts:63-100 | the booking input built from the body; stated by PreparedInputFields, AbsentOptionalsDefault and FalseFunctionsStoredEmpty |
| BookingsRoute.Post | src/app/api/bookings/route.ts:32-100 | the missing-field check, then the terms check, then the booking input; stated by PostCreatesIff and TermsFalseRejected |
| BookingsRoute.PostStatus | src/app/api/bookings/route.ts:41-60 | 400 for either rejection, 201 for a created booking; stated by PostCreatesIff and TermsFalseRejected |
| BookingsRoute.PostError | src/app/api/bookings/route.ts:41-60 | the error message of each rejection; stated by MissingMessageExample |
| BookingsRoute.Given | src/app/api/bookings/route.ts:136 | a query parameter that is present and non-empty; stated by GetBadRequestIff |
| BookingsRoute.Get | src/app/api/bookings/route.ts:130-170 | the reference lookup first, then the phone lookup, otherwise a bad request; stated by GetPrefersReference, GetFallsBackToPhone and GetBadRequestIff |
| BookingsRoute.GetStatus | src/app/api/bookings/route.ts:136-170 | 200, 404, 200 or 400 for the four outcomes; stated by GetPrefersReference and GetBadRequestIff |
| BookingsRouteProperties.MissingAmongAppend | src/app/api/bookings/route.ts:32-39 | the filter distributes over concatenation, so fields are reported in requiredFields order |
| BookingsRouteProperties.MissingMembership | src/app/api/bookings/route.ts:17-39 | a field is reported exactly when it is required and its value is missing |
| BookingsRouteProperties.ZeroAndFalseArePresent | src/app/api/bookings/route.ts:32-39 | 0 and false are never reported missing |
| BookingsRouteProperties.EmptyArrayMissingOnlyForFunctions | src/app/api/bookings/route.ts:37 | an empty array is missing exactly for selected_functions |
| BookingsRouteProperties.StringMissingIffBlank | src/app/api/bookings/route.ts:36 | a string is missing exactly when it is all whitespace |
| BookingsRouteProperties.CompleteIffNoneMissing | src/app/api/bookings/route.ts:32-49 | no field is reported exactly when every required field holds a present value |
| BookingsRouteProperties.PostCreatesIff | src/app/api/bookings/route.ts:41-60 | a booking is created exactly when nothing is missing and terms are truthy; a missing field gives 400 with the list |
| BookingsRouteProperties.TermsFalseRejected | src/app/api/bookings/route.ts:52-60 | terms_accepted: false passes the missing-field check but is rejected with 400 |
| BookingsRouteProperties.PreparedInputFields | src/app/api/bookings/route.ts:63-100 | copied keys keep the body's value or stay absent; defaulted keys are always set, to the value when truthy, otherwise the default |
| BookingsRouteProperties.AbsentOptionalsDefault | src/app/api/bookings/route.ts:77-88 | absent additional functions and add-ons become [], absent crew totals 0 |
| BookingsRouteProperties.FalseFunctionsStoredEmpty | src/app/api/bookings/route.ts:37-77 | selected_functions: false passes the check and is stored as [] |
| BookingsRouteProperties.MissingMessageExample | src/app/api/bookings/route.ts:41-49 | the message lists the missing fields joined by ", " |
| BookingsRouteProperties.GetPrefersReference | src/app/api/bookings/route.ts:136-153 | a given reference decides the answer whatever the phone; 404 exactly when it is unknown |
| BookingsRouteProperties.GetFallsBackToPhone | src/app/api/bookings/route.ts:155-162 | without a reference, a given phone returns its bookings |
| BookingsRouteProperties.GetBadRequestIff | src/app/api/bookings/route.ts:164-170 | 400 exactly when neither parameter is given |
| AlbumPanel.ExtraPages | src/components/AlbumConfig.tsx:34 | Math.max(0, pages − 60): non-negative, at least pages − 60, and either pages − 60 or 0 |
| AlbumPanel.PagesIncrement | src/components/AlbumConfig.tsx:24-26 | plus hands pages + 10 to the callback; stated by HandlersStayOnGrid and IncrementDecrementInverse |
| AlbumPanel.PagesDecrement | src/components/AlbumConfig.tsx:28-32 | minus hands pages − 10 to the callback only above 60; stated by HandlersStayOnGrid and IncrementDecrementInverse |
| AlbumPanel.PagesReset | src/components/AlbumConfig.tsx:73 | Reset hands 60 to the callback; stated by HandlersStayOnGrid |
| AlbumPanel.PricePerTenPages | src/components/AlbumConfig.tsx:22 | the prop, defaulting to 500; stated by ExtraCostPerTen |
| AlbumPanel.ExtraCost | src/components/AlbumConfig.tsx:35 | (extraPages / 10) × pricePerTenPages, unrounded; stated by NoExtraAtBase, ExtraCostPerTen and DisplayedCostMatchesEngine |
| AlbumPanelProperties.HandlersStayOnGrid | src/components/AlbumConfig.tsx:24-73 | from 60 + 10k, every handler yields 60 + 10k′ |
| AlbumPanelProperties.IncrementDecrementInverse | src/components/AlbumConfig.tsx:24-32 | plus then minus, and minus then plus above the base, restore the count |
| AlbumPanelProperties.NoExtraAtBase | src/components/AlbumConfig.tsx:34-35 | at or below 60 pages there is no extra page and no cost |
| AlbumPanelProperties.ExtraCostPerTen | src/components/AlbumConfig.tsx:22-35 | on 60 + 10k the displayed cost is k × price per ten pages, default 500 |
| AlbumPanelProperties.DisplayedCostMatchesEngine | src/components/AlbumConfig.tsx:34-35 | with a 60-page base the engine's extra-pages cost is the displayed cost, rounded |
| AlbumPanelProperties.RunStaysOnGrid | src/components/AlbumConfig.tsx:24-73 | every series of presses from 60 + 10k stays on 60 + 10k′ |
| CrewCounter.MinOf | src/components/CrewCounter.tsx:16 | the min prop, defaulting to 0; stated by DefaultRange |
| CrewCounter.MaxOf | src/components/CrewCounter.tsx:17 | the max prop, defaulting to 10; stated by DefaultRange |
| CrewCounter.Increment | src/components/CrewCounter.tsx:19-21 | plus hands value + 1 to onChange only below max; stated by StaysInBounds, IncrementThenDecrement and RepeatedIncrementReachesMax |
| CrewCounter.Decrement | src/components/CrewCounter.tsx:23-25 | minus hands value − 1 to onChange only above min; stated by StaysInBounds and DecrementThenIncrement |
| CrewCounterProperties.StaysInBounds | src/components/CrewCounter.tsx:19-25 | a value in [min, max] stays there under either button |
| CrewCounterProperties.DefaultRange | src/components/CrewCounter.tsx:16-25 | with no bounds passed (min 0, max 10) a count in 0..10 stays in 0..10 under minus and under any number of plus presses, and ten presses from 0 reach 10 |
| CrewCounterProperties.IncrementThenDecrement | src/components/CrewCounter.tsx:19-25 | below max, plus then minus restores the value |
| CrewCounterProperties.DecrementThenIncrement | src/components/CrewCounter.tsx:19-25 | above min, minus then plus restores the value |
| CrewCounterProperties.RepeatedIncrementReachesMax | src/components/CrewCounter.tsx:19-21 | n presses of plus reach min(value + n, max) |
| Validations.MatchesPhonePattern | src/lib/validations.ts:11 | /^[0-9+\-\s()]+$/; stated by PhoneExamples and Step1Iff |
| Validations.Step1Issues | src/lib/validations.ts:5-23 | the issues of step1Schema, one per failing check, in declaration order; stated by Step1Iff, Step1OptionalFieldsIgnored and EmptyPhoneReportedTwice |
| Validations.Step2Issues | src/lib/validations.ts:28-36 | the issues of step2Schema; stated by Step2Iff, CounterCanLeaveStep2Range and InitialCrewPassesStep2 |
| Validations.Step3Issues | src/lib/validations.ts:41-46 | the issues of step3Schema; stated by Step3Iff and AlbumControlPassesStep3 |
| Validations.Step5Issues | src/lib/validations.ts:51-58 | the issues of step5Schema; stated by Step5Iff |
| Validations.Under | src/lib/validations.ts:63-69 | a nested schema's issues keep their order and messages, with the field name prefixed to the path |
| Validations.CompleteIssues | src/lib/validations.ts:63-69 | the issues of completeBookingSchema, the nested ones under their field; stated by CompleteIff and CompleteIssuePaths |
| ValidationsProperties.Step1Iff | src/lib/validations.ts:5-23 | step 1 passes exactly with a name of ≥ 2 characters, a phone of ≥ 10 pattern characters, a valid email and a booking type |
| ValidationsProperties.Step1OptionalFieldsIgnored | src/lib/validations.ts:12-22 | the optional fields never affect the issues |
| ValidationsProperties.EmptyPhoneReportedTwice | src/lib/validations.ts:8-11 | an empty phone fails both the length and the pattern check |
| ValidationsProperties.PhoneExamples | src/lib/validations.ts:8-11 | spaces, dashes, brackets and plus are accepted; a letter is not |
| ValidationsProperties.Step2Iff | src/lib/validations.ts:28-36 | step 2 passes exactly with both crew counts in 1..10 |
| ValidationsProperties.CounterCanLeaveStep2Range | src/lib/validations.ts:29-33 | from a count of 1, the counter's minus with min 0 (given or defaulted) emits 0, and step 2 rejects that count |
| ValidationsProperties.InitialCrewPassesStep2 | src/lib/validations.ts:28-36 | the draft's initial crew passes step 2 |
| ValidationsProperties.Step3Iff | src/lib/validations.ts:41-46 | step 3 passes exactly with ≥ 60 pages; 65 is accepted |
| ValidationsProperties.AlbumControlPassesStep3 | src/lib/validations.ts:42 | every count the album control reaches from 60 passes step 3 |
| ValidationsProperties.Step5Iff | src/lib/validations.ts:51-58 | step 5 passes exactly with a signature of ≥ 2 characters and accepted terms |
| ValidationsProperties.CompleteIff | src/lib/validations.ts:63-69 | the complete booking passes exactly when every nested step passes and a package is chosen |
| ValidationsProperties.CompleteIssuePaths | src/lib/validations.ts:63-69 | every issue is reported under one of the five top-level fields |
| AlbumConfigService.Collect | src/services/albumConfig.service.ts:52-56 | the map the forEach loop fills, skipping null values; stated by CollectKeys, LastNonNullWins and NullRecordIgnored |
| AlbumConfigService.FromConfigMap | src/services/albumConfig.service.ts:58-64 | the five `get(key) ?? default` reads; stated by NoValuesGiveDefaults, OtherKeysIrrelevant and ReadWithFallback |
| AlbumConfigService.MapToAlbumConfiguration | src/services/albumConfig.service.ts:49-65 | the loop's result is the defaulted reading of the fold of the records |
| AlbumConfigProperties.CollectKeys | src/services/albumConfig.service.ts:52-56 | a key is stored exactly when some record for it has a value |
| AlbumConfigProperties.LastNonNullWins | src/services/albumConfig.service.ts:52-56 | a key's value is that of its last non-null record |
| AlbumConfigProperties.NullRecordIgnored | src/services/albumConfig.service.ts:52-56 | a null record changes nothing |
| AlbumConfigProperties.NoValuesGiveDefaults | src/services/albumConfig.service.ts:58-64 | no non-null record gives exactly 60, 8000, 500, 1.8, 10 |
| AlbumConfigProperties.OtherKeysIrrelevant | src/services/albumConfig.service.ts:58-64 | a record for another key never affects the result |
| AlbumConfigProperties.ReadWithFallback | src/services/albumConfig.service.ts:52-64 | a key with no value reads as its fallback; otherwise as its last non-null value |
| AlbumConfigProperties.CollectExample | src/services/albumConfig.service.ts:52-64 | a worked table: a later row wins, a null row is skipped, a 0 is kept |
| PricingConfigService.Collect | src/services/pricingConfig.service.ts:51-54 | the map the forEach loop fills; stated by LastRecordWins |
| PricingConfigService.FromConfigMap | src/services/pricingConfig.service.ts:56-60 | the three `get(key) ?? default` reads; stated by StoredZeroKept, EmptyGivesDefaults and OtherKeysIrrelevant |
| PricingConfigService.MapToPricingConfiguration | src/services/pricingConfig.service.ts:49-61 | the loop's result is the defaulted reading of the fold of the records |
| PricingConfigProperties.LastRecordWins | src/services/pricingConfig.service.ts:51-54 | a key is stored exactly when some record has it, with the last record's value |
| PricingConfigProperties.StoredZeroKept | src/services/pricingConfig.service.ts:57-59 | a stored 0 is kept, not replaced by the default |
| PricingConfigProperties.EmptyGivesDefaults | src/services/pricingConfig.service.ts:56-60 | no records give fee 8000, tax 0, advance 30 |
| PricingConfigProperties.OtherKeysIrrelevant | src/services/pricingConfig.service.ts:56-60 | a record for another key never affects the result |
| PricingConfigProperties.DefaultsInEngine | src/services/pricingConfig.service.ts:56-60 | with no records the engine charges no tax, and its advance is the draft's 30 % split |

## Left out

- The database queries, the fetch wrappers and the error paths that answer 500 are not modelled: they are I/O against a database client outside this model. The lookups GET performs are function parameters.
- HTTP encoding is reduced to a status code and a message string. A request body that is not a JSON object is not modelled.
- The persistence wrapper of the store (src/lib/store.ts:262-279) is not modelled: browser storage.
- JSX rendering and the wiring of the other wizard steps are not modelled; they are UI.
- IEEE-754 rounding drift is not modelled: all arithmetic is exact on reals.
- JavaScript string length counts UTF-16 code units, while the model counts characters. The two differ only for characters outside the Basic Multilingual Plane.
- Date.now() is the parameter `now` of the toggle handlers.
- Email syntax is the parameter `isEmail`. The library's default message for `.max` is represented as no message.
- The record renames of the event catalogue are not modelled. That includes the one in src/services/events.service.ts:97-107, which never sets extraHourRate. The engine takes extraHourRate as a given number rather than modelling the NaN it would produce.
- WizardStep2.CalculateDuration: only an empty string or a DD:DD clock string is accepted; other text (for example a one-digit hour, seconds or padding) is not modelled: some of it yields a number, some NaN. Its promise about the value is stated by the WizardStep2Properties lemmas, for times of day.
- WizardStep2.CalculateEndTime: the duration must be a whole number of minutes, so the minute field is an integer. A fractional minute would be printed as a JavaScript float.
- WizardStep2.HandleFunctionToggle: the catalogue's default hours must be whole minutes, as CalculateEndTime requires.
- WizardStep2.HandleAdditionalToggle: the same requirement on the additional catalogue.
- WizardStep2Properties.EndTimeIsTimeOfDay: the end hour lies in 0..23 only for a non-negative end. JavaScript's `%` keeps the sign of a negative end, so such an end is formatted with negative parts (see NegativeEndExample).
- Validations.Step2Issues: crew counts are integers. The schema's number type would also accept fractions.
- PricingService.CalculatePricing: it takes the configurations as values; their loading is the two folds above.
