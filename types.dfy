/** The records the pricing engine reads and produces: catalogue entries,
    the draft's selections and the priced breakdown. Money and hours are
    reals, crew and page counts are integers. */
module Types {

  /** A bookable function from the catalogue. */
  datatype EventFunction = EventFunction(
    id: string,
    labelText: string,
    icon: string,
    defaultHours: real,
    flatPrice: real,
    includedPhotographers: int,
    includedCinematographers: int,
    extraHourRate: real)

  /** One function instance chosen in the draft (main or additional). */
  datatype SelectedFunction = SelectedFunction(
    id: string,
    functionId: string,
    name: string,
    date: string,
    startTime: string,
    endTime: string,
    duration: real,
    photographers: int,
    cinematographers: int)

  /** The draft's album choice. */
  datatype AlbumConfig = AlbumConfig(pages: int, albumType: string)

  /** Album constants from the configuration table. */
  datatype AlbumConfiguration = AlbumConfiguration(
    basePages: real,
    basePriceSingle: real,
    per10PagesCost: real,
    doubleAlbumMultiplier: real,
    pagesIncrement: real)

  /** Pricing constants from the configuration table. */
  datatype PricingConfiguration = PricingConfiguration(
    extraCrewFlatFee: real,
    taxPercentage: real,
    advancePercentage: real)

  /** A video add-on from the catalogue, keyed by its slug `value`. */
  datatype VideoAddonOption = VideoAddonOption(
    value: string,
    labelText: string,
    description: string,
    price: real)

  datatype FunctionDetails = FunctionDetails(
    duration: real,
    includedHours: real,
    extraHours: real,
    photographers: int,
    includedPhotographers: int,
    cinematographers: int,
    includedCinematographers: int,
    extraCrewCount: int)

  /** The priced line of one selected function. */
  datatype FunctionPricing = FunctionPricing(
    functionId: string,
    functionName: string,
    basePrice: real,
    extraHoursCost: int,
    extraCrewCost: real,
    totalFunctionCost: real,
    details: FunctionDetails)

  datatype AlbumDetails = AlbumDetails(
    pages: int,
    basePages: real,
    extraPages: real,
    albumType: string,
    multiplier: real)

  /** The priced album line. */
  datatype AlbumPricing = AlbumPricing(
    basePrice: real,
    extraPagesCost: int,
    totalAlbumCost: int,
    details: AlbumDetails)

  /** The priced line of one selected video add-on. */
  datatype AddonLine = AddonLine(slug: string, labelText: string, price: real)

  /** The complete priced snapshot of a draft. */
  datatype PricingBreakdown = PricingBreakdown(
    functions: seq<FunctionPricing>,
    album: AlbumPricing,
    videoAddons: seq<AddonLine>,
    subtotal: real,
    tax: int,
    total: real,
    advance: int,
    balance: real)
}
