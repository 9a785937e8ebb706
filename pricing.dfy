/** The pricing engine: from the draft's selections and the catalogue
    records to a PricingBreakdown. Every function here is pure. */
module PricingService {
  import opened Types
  import opened Money
  import opened Seqs

  // ---------------------------------------------------------------
  // Per-function lines
  // ---------------------------------------------------------------

  /** The catalogue definition a selection refers to (first id match). */
  function DefinitionOf(sel: SelectedFunction, defs: seq<EventFunction>): Option<EventFunction> {
    Find(defs, FunctionIdOf, sel.functionId)
  }

  function FunctionIdOf(ef: EventFunction): string { ef.id }

  /** The line of a selection whose definition is missing: all costs zero. */
  function ZeroLine(sel: SelectedFunction): FunctionPricing {
    FunctionPricing(
      sel.functionId, sel.name, 0.0, 0, 0.0, 0.0,
      FunctionDetails(sel.duration, 0.0, 0.0, sel.photographers, 0, sel.cinematographers, 0, 0))
  }

  /** The line of a selection priced against its definition `ef`. */
  function PricedLine(sel: SelectedFunction, ef: EventFunction, cfg: PricingConfiguration): FunctionPricing {
    var extraHours := Max0(sel.duration - ef.defaultHours);
    var extraHoursCost := Round(extraHours * ef.extraHourRate);
    var extraPhotographers := Max0Int(sel.photographers - ef.includedPhotographers);
    var extraCinematographers := Max0Int(sel.cinematographers - ef.includedCinematographers);
    var extraCrewCount := extraPhotographers + extraCinematographers;
    var extraCrewCost := extraCrewCount as real * cfg.extraCrewFlatFee;
    FunctionPricing(
      sel.functionId, sel.name, ef.flatPrice, extraHoursCost, extraCrewCost,
      ef.flatPrice + extraHoursCost as real + extraCrewCost,
      FunctionDetails(
        sel.duration, ef.defaultHours, extraHours,
        sel.photographers, ef.includedPhotographers,
        sel.cinematographers, ef.includedCinematographers,
        extraCrewCount))
  }

  /** The callback of calculateFunctionsPricing's map. */
  function FunctionLine(sel: SelectedFunction, defs: seq<EventFunction>, cfg: PricingConfiguration): FunctionPricing {
    match DefinitionOf(sel, defs)
    case None => ZeroLine(sel)
    case Some(ef) => PricedLine(sel, ef, cfg)
  }

  /** calculateFunctionsPricing: one line per selection, in input order. */
  function FunctionsPricing(sels: seq<SelectedFunction>, defs: seq<EventFunction>, cfg: PricingConfiguration)
    : (r: seq<FunctionPricing>)
    ensures |r| == |sels|
    ensures forall i :: 0 <= i < |sels| ==> r[i] == FunctionLine(sels[i], defs, cfg)
  {
    if |sels| == 0 then []
    else FunctionsPricing(sels[..|sels| - 1], defs, cfg) + [FunctionLine(sels[|sels| - 1], defs, cfg)]
  }

  // ---------------------------------------------------------------
  // Album line
  // ---------------------------------------------------------------

  /** The only album type the engine prices with the double multiplier. */
  const DoubleAlbumType: string := "two-photobooks"

  /** calculateAlbumPricing. Extra pages are divided by a literal 10:
      the configuration's pagesIncrement is never read. */
  function AlbumPricingOf(album: AlbumConfig, conf: AlbumConfiguration): AlbumPricing {
    AlbumLine(album, conf.basePages, conf.basePriceSingle, conf.per10PagesCost, conf.doubleAlbumMultiplier)
  }

  /** The album line from the four configuration values the engine reads. */
  function AlbumLine(album: AlbumConfig, basePages: real, basePriceSingle: real,
                     per10PagesCost: real, doubleAlbumMultiplier: real): AlbumPricing {
    var extraPages := Max0(album.pages as real - basePages);
    var extraPagesCost := Round(extraPages / 10.0 * per10PagesCost);
    var multiplier := if album.albumType == DoubleAlbumType then doubleAlbumMultiplier else 1.0;
    var totalAlbumCost := Round((basePriceSingle + extraPagesCost as real) * multiplier);
    AlbumPricing(
      basePriceSingle, extraPagesCost, totalAlbumCost,
      AlbumDetails(album.pages, basePages, extraPages, album.albumType, multiplier))
  }

  // ---------------------------------------------------------------
  // Add-on lines
  // ---------------------------------------------------------------

  /** The catalogue option a slug refers to (first `value` match). */
  function OptionOf(slug: string, options: seq<VideoAddonOption>): Option<VideoAddonOption> {
    Find(options, OptionValueOf, slug)
  }

  function OptionValueOf(o: VideoAddonOption): string { o.value }

  predicate IsKnownSlug(slug: string, options: seq<VideoAddonOption>) {
    OptionOf(slug, options).Some?
  }

  /** calculateVideoAddonsPricing: map each slug to a line, then drop the
      slugs with no option. */
  function AddonLines(slugs: seq<string>, options: seq<VideoAddonOption>): (r: seq<AddonLine>)
    ensures |r| <= |slugs|
    ensures forall i :: 0 <= i < |r| ==>
      r[i].slug in slugs && IsKnownSlug(r[i].slug, options) &&
      OptionOf(r[i].slug, options).value.labelText == r[i].labelText &&
      OptionOf(r[i].slug, options).value.price == r[i].price
  {
    if |slugs| == 0 then []
    else
      var rest := AddonLines(slugs[..|slugs| - 1], options);
      var slug := slugs[|slugs| - 1];
      match OptionOf(slug, options)
      case None => rest
      case Some(o) => rest + [AddonLine(slug, o.labelText, o.price)]
  }

  // ---------------------------------------------------------------
  // Totals
  // ---------------------------------------------------------------

  /** functionsPricing.reduce((sum, f) => sum + f.totalFunctionCost, 0). */
  function FunctionsTotal(lines: seq<FunctionPricing>): real {
    if |lines| == 0 then 0.0
    else FunctionsTotal(lines[..|lines| - 1]) + lines[|lines| - 1].totalFunctionCost
  }

  /** videoAddonsPricing.reduce((sum, v) => sum + v.price, 0). */
  function AddonsTotal(lines: seq<AddonLine>): real {
    if |lines| == 0 then 0.0
    else AddonsTotal(lines[..|lines| - 1]) + lines[|lines| - 1].price
  }

  /** Math.round(amount * (percentage / 100)): how tax and advance are taken. */
  function PercentOf(amount: real, percentage: real): int {
    Round(amount * (percentage / 100.0))
  }

  /** calculatePricing: main functions first, then additional ones; the
      album line; the add-on lines; then subtotal, tax, total and the
      advance/balance split. */
  function CalculatePricing(
    selectedFunctions: seq<SelectedFunction>,
    additionalFunctions: seq<SelectedFunction>,
    album: AlbumConfig,
    videoAddons: seq<string>,
    eventFunctions: seq<EventFunction>,
    albumConfiguration: AlbumConfiguration,
    pricingConfig: PricingConfiguration,
    videoAddonOptions: seq<VideoAddonOption>): (r: PricingBreakdown)
    ensures |r.functions| == |selectedFunctions| + |additionalFunctions|
    ensures forall i :: 0 <= i < |selectedFunctions| ==>
      r.functions[i] == FunctionLine(selectedFunctions[i], eventFunctions, pricingConfig)
    ensures forall j :: 0 <= j < |additionalFunctions| ==>
      r.functions[|selectedFunctions| + j] == FunctionLine(additionalFunctions[j], eventFunctions, pricingConfig)
    ensures r.album == AlbumPricingOf(album, albumConfiguration)
    ensures r.videoAddons == AddonLines(videoAddons, videoAddonOptions)
    ensures r.subtotal == FunctionsTotal(r.functions) + r.album.totalAlbumCost as real + AddonsTotal(r.videoAddons)
    ensures r.tax == PercentOf(r.subtotal, pricingConfig.taxPercentage)
    ensures r.total == r.subtotal + r.tax as real
    ensures r.advance == PercentOf(r.total, pricingConfig.advancePercentage)
    ensures r.advance as real + r.balance == r.total
  {
    var functionsPricing := FunctionsPricing(selectedFunctions + additionalFunctions, eventFunctions, pricingConfig);
    var albumPricing := AlbumPricingOf(album, albumConfiguration);
    var videoAddonsPricing := AddonLines(videoAddons, videoAddonOptions);
    var functionsTotal := FunctionsTotal(functionsPricing);
    var videoAddonsTotal := AddonsTotal(videoAddonsPricing);
    var subtotal := functionsTotal + albumPricing.totalAlbumCost as real + videoAddonsTotal;
    var tax := PercentOf(subtotal, pricingConfig.taxPercentage);
    var total := subtotal + tax as real;
    var advance := PercentOf(total, pricingConfig.advancePercentage);
    var balance := total - advance as real;
    PricingBreakdown(functionsPricing, albumPricing, videoAddonsPricing, subtotal, tax, total, advance, balance)
  }
}
