/** The booking draft: one mutable BookingState whose actions replace
    fields. The new value of each list is given by a pure function over
    the old one; the lemmas below state what those functions promise. */
module Store {
  import opened Types
  import opened Money
  import opened Seqs

  // ---------------------------------------------------------------
  // Draft records and their partial updates
  // ---------------------------------------------------------------

  datatype ClientInfo = ClientInfo(
    fullName: string, phone: string, whatsapp: string,
    email: string, homeAddress: string, currentLocation: string)

  /** Partial<ClientInfo>: None means the key is absent. */
  datatype ClientInfoUpdate = ClientInfoUpdate(
    fullName: Option<string>, phone: Option<string>, whatsapp: Option<string>,
    email: Option<string>, homeAddress: Option<string>, currentLocation: Option<string>)

  datatype EventDetails = EventDetails(
    bookingType: string, eventLocation: string, eventDate: string,
    guestCount: string, budgetRange: string)

  datatype EventDetailsUpdate = EventDetailsUpdate(
    bookingType: Option<string>, eventLocation: Option<string>, eventDate: Option<string>,
    guestCount: Option<string>, budgetRange: Option<string>)

  datatype CrewSelection = CrewSelection(
    photographers: int, cinematographers: int,
    mainEventStartTime: string, mainEventEndTime: string)

  datatype CrewSelectionUpdate = CrewSelectionUpdate(
    photographers: Option<int>, cinematographers: Option<int>,
    mainEventStartTime: Option<string>, mainEventEndTime: Option<string>)

  datatype AlbumConfigUpdate = AlbumConfigUpdate(pages: Option<int>, albumType: Option<string>)

  /** Partial<SelectedFunction>. */
  datatype FunctionUpdate = FunctionUpdate(
    id: Option<string>, functionId: Option<string>, name: Option<string>, date: Option<string>,
    startTime: Option<string>, endTime: Option<string>, duration: Option<real>,
    photographers: Option<int>, cinematographers: Option<int>)

  /** `{ ...old, ...update }` for one field. */
  function Over<T>(old_: T, update: Option<T>): T {
    match update
    case Some(v) => v
    case None => old_
  }

  function MergeClientInfo(c: ClientInfo, u: ClientInfoUpdate): ClientInfo {
    ClientInfo(Over(c.fullName, u.fullName), Over(c.phone, u.phone), Over(c.whatsapp, u.whatsapp),
               Over(c.email, u.email), Over(c.homeAddress, u.homeAddress),
               Over(c.currentLocation, u.currentLocation))
  }

  function MergeEventDetails(e: EventDetails, u: EventDetailsUpdate): EventDetails {
    EventDetails(Over(e.bookingType, u.bookingType), Over(e.eventLocation, u.eventLocation),
                 Over(e.eventDate, u.eventDate), Over(e.guestCount, u.guestCount),
                 Over(e.budgetRange, u.budgetRange))
  }

  function MergeCrewSelection(c: CrewSelection, u: CrewSelectionUpdate): CrewSelection {
    CrewSelection(Over(c.photographers, u.photographers), Over(c.cinematographers, u.cinematographers),
                  Over(c.mainEventStartTime, u.mainEventStartTime),
                  Over(c.mainEventEndTime, u.mainEventEndTime))
  }

  function MergeAlbumConfig(a: AlbumConfig, u: AlbumConfigUpdate): AlbumConfig {
    AlbumConfig(Over(a.pages, u.pages), Over(a.albumType, u.albumType))
  }

  function MergeFunction(f: SelectedFunction, u: FunctionUpdate): SelectedFunction {
    SelectedFunction(
      Over(f.id, u.id), Over(f.functionId, u.functionId), Over(f.name, u.name), Over(f.date, u.date),
      Over(f.startTime, u.startTime), Over(f.endTime, u.endTime), Over(f.duration, u.duration),
      Over(f.photographers, u.photographers), Over(f.cinematographers, u.cinematographers))
  }

  /** Every field of the draft, as one value. */
  datatype BookingState = BookingState(
    clientInfo: ClientInfo,
    eventDetails: EventDetails,
    selectedFunctions: seq<SelectedFunction>,
    additionalFunctions: seq<SelectedFunction>,
    crewSelection: CrewSelection,
    albumConfig: AlbumConfig,
    complimentaryItem: string,
    videoAddons: seq<string>,
    selectedPackage: Option<string>,
    selectedPackageId: Option<string>,
    totalPrice: real,
    advanceAmount: real,
    balanceAmount: real,
    pricingBreakdown: Option<PricingBreakdown>)

  /** initialState. */
  const InitialState: BookingState := BookingState(
    ClientInfo("", "", "", "", "", ""),
    EventDetails("", "", "", "", ""),
    [],
    [],
    CrewSelection(2, 2, "07:00", "15:30"),
    AlbumConfig(60, "one-photobook"),
    "",
    [],
    None,
    None,
    0.0, 0.0, 0.0,
    None)

  // ---------------------------------------------------------------
  // The list updates the actions perform
  // ---------------------------------------------------------------

  function IdOf(f: SelectedFunction): string { f.id }

  function SlugOf(s: string): string { s }

  /** list.map(f => f.id === id ? { ...f, ...updates } : f). */
  function UpdatedById(fs: seq<SelectedFunction>, id: string, u: FunctionUpdate): (r: seq<SelectedFunction>)
    ensures |r| == |fs|
    ensures forall i :: 0 <= i < |fs| ==> r[i] == if fs[i].id == id then MergeFunction(fs[i], u) else fs[i]
  {
    if |fs| == 0 then []
    else [if fs[0].id == id then MergeFunction(fs[0], u) else fs[0]] + UpdatedById(fs[1..], id, u)
  }

  /** list.filter(f => f.id !== id). */
  function RemovedById(fs: seq<SelectedFunction>, id: string): seq<SelectedFunction> {
    Without(fs, IdOf, id)
  }

  /** The new add-on list of toggleVideoAddon. */
  function Toggled(addons: seq<string>, addon: string): seq<string> {
    if addon in addons then Without(addons, SlugOf, addon) else addons + [addon]
  }

  /** The advance/balance split hard-coded at 30 % in selectPackage and calculatePricing. */
  function ThirtyPercentAdvance(price: real): int {
    Round(price * 0.3)
  }

  // ---------------------------------------------------------------
  // The draft
  // ---------------------------------------------------------------

  class BookingStore {
    var clientInfo: ClientInfo
    var eventDetails: EventDetails
    var selectedFunctions: seq<SelectedFunction>
    var additionalFunctions: seq<SelectedFunction>
    var crewSelection: CrewSelection
    var albumConfig: AlbumConfig
    var complimentaryItem: string
    var videoAddons: seq<string>
    var selectedPackage: Option<string>
    var selectedPackageId: Option<string>
    var totalPrice: real
    var advanceAmount: real
    var balanceAmount: real
    var pricingBreakdown: Option<PricingBreakdown>

    /** The whole state, as a value. */
    function Snapshot(): BookingState
      reads this
    {
      BookingState(clientInfo, eventDetails, selectedFunctions, additionalFunctions, crewSelection,
                   albumConfig, complimentaryItem, videoAddons, selectedPackage, selectedPackageId,
                   totalPrice, advanceAmount, balanceAmount, pricingBreakdown)
    }

    /** Sets every field from a state value. */
    method Load(s: BookingState)
      modifies this
      ensures Snapshot() == s
    {
      clientInfo, eventDetails := s.clientInfo, s.eventDetails;
      selectedFunctions, additionalFunctions := s.selectedFunctions, s.additionalFunctions;
      crewSelection, albumConfig := s.crewSelection, s.albumConfig;
      complimentaryItem, videoAddons := s.complimentaryItem, s.videoAddons;
      selectedPackage, selectedPackageId := s.selectedPackage, s.selectedPackageId;
      totalPrice, advanceAmount, balanceAmount := s.totalPrice, s.advanceAmount, s.balanceAmount;
      pricingBreakdown := s.pricingBreakdown;
    }

    /** The store starts from initialState. */
    constructor ()
      ensures Snapshot() == InitialState
    {
      var s := InitialState;
      clientInfo, eventDetails := s.clientInfo, s.eventDetails;
      selectedFunctions, additionalFunctions := s.selectedFunctions, s.additionalFunctions;
      crewSelection, albumConfig := s.crewSelection, s.albumConfig;
      complimentaryItem, videoAddons := s.complimentaryItem, s.videoAddons;
      selectedPackage, selectedPackageId := s.selectedPackage, s.selectedPackageId;
      totalPrice, advanceAmount, balanceAmount := s.totalPrice, s.advanceAmount, s.balanceAmount;
      pricingBreakdown := s.pricingBreakdown;
    }

    method UpdateClientInfo(data: ClientInfoUpdate)
      modifies this
      ensures Snapshot() == old(Snapshot()).(clientInfo := MergeClientInfo(old(clientInfo), data))
    {
      clientInfo := MergeClientInfo(clientInfo, data);
    }

    method UpdateEventDetails(data: EventDetailsUpdate)
      modifies this
      ensures Snapshot() == old(Snapshot()).(eventDetails := MergeEventDetails(old(eventDetails), data))
    {
      eventDetails := MergeEventDetails(eventDetails, data);
    }

    /** Appends `func` at the end of the main list. */
    method AddSelectedFunction(func: SelectedFunction)
      modifies this
      ensures Snapshot() == old(Snapshot()).(selectedFunctions := old(selectedFunctions) + [func])
    {
      selectedFunctions := selectedFunctions + [func];
    }

    method UpdateSelectedFunction(id: string, updates: FunctionUpdate)
      modifies this
      ensures Snapshot() == old(Snapshot()).(selectedFunctions := UpdatedById(old(selectedFunctions), id, updates))
    {
      selectedFunctions := UpdatedById(selectedFunctions, id, updates);
    }

    /** Drops every main entry with instance id `id`; the additional list is untouched. */
    method RemoveSelectedFunction(id: string)
      modifies this
      ensures Snapshot() == old(Snapshot()).(selectedFunctions := RemovedById(old(selectedFunctions), id))
    {
      selectedFunctions := RemovedById(selectedFunctions, id);
    }

    method UpdateCrewSelection(data: CrewSelectionUpdate)
      modifies this
      ensures Snapshot() == old(Snapshot()).(crewSelection := MergeCrewSelection(old(crewSelection), data))
    {
      crewSelection := MergeCrewSelection(crewSelection, data);
    }

    method UpdateAlbumConfig(data: AlbumConfigUpdate)
      modifies this
      ensures Snapshot() == old(Snapshot()).(albumConfig := MergeAlbumConfig(old(albumConfig), data))
    {
      albumConfig := MergeAlbumConfig(albumConfig, data);
    }

    method SetComplimentaryItem(item: string)
      modifies this
      ensures Snapshot() == old(Snapshot()).(complimentaryItem := item)
    {
      complimentaryItem := item;
    }

    /** Removes `addon` when present, appends it when absent. */
    method ToggleVideoAddon(addon: string)
      modifies this
      ensures Snapshot() == old(Snapshot()).(videoAddons := Toggled(old(videoAddons), addon))
    {
      var exists_ := addon in videoAddons;
      videoAddons := if exists_ then Without(videoAddons, SlugOf, addon) else videoAddons + [addon];
    }

    /** Appends `func` at the end of the additional list. */
    method AddAdditionalFunction(func: SelectedFunction)
      modifies this
      ensures Snapshot() == old(Snapshot()).(additionalFunctions := old(additionalFunctions) + [func])
    {
      additionalFunctions := additionalFunctions + [func];
    }

    method UpdateAdditionalFunction(id: string, data: FunctionUpdate)
      modifies this
      ensures Snapshot() == old(Snapshot()).(additionalFunctions := UpdatedById(old(additionalFunctions), id, data))
    {
      additionalFunctions := UpdatedById(additionalFunctions, id, data);
    }

    /** Drops every additional entry with instance id `id`; the main list is untouched. */
    method RemoveAdditionalFunction(id: string)
      modifies this
      ensures Snapshot() == old(Snapshot()).(additionalFunctions := RemovedById(old(additionalFunctions), id))
    {
      additionalFunctions := RemovedById(additionalFunctions, id);
    }

    /** Records the package and splits its price at a fixed 30 %. */
    method SelectPackage(packageName: string, packageId: string, price: real)
      modifies this
      ensures Snapshot() == old(Snapshot()).(
        selectedPackage := Some(packageName), selectedPackageId := Some(packageId),
        totalPrice := price,
        advanceAmount := ThirtyPercentAdvance(price) as real,
        balanceAmount := price - ThirtyPercentAdvance(price) as real)
      ensures advanceAmount + balanceAmount == totalPrice
    {
      var advance := Round(price * 0.3);
      selectedPackage, selectedPackageId := Some(packageName), Some(packageId);
      totalPrice := price;
      advanceAmount := advance as real;
      balanceAmount := price - advance as real;
    }

    /** Stores the breakdown and copies its total, advance and balance. */
    method SetPricingBreakdown(breakdown: PricingBreakdown)
      modifies this
      ensures Snapshot() == old(Snapshot()).(
        pricingBreakdown := Some(breakdown),
        totalPrice := breakdown.total,
        advanceAmount := breakdown.advance as real,
        balanceAmount := breakdown.balance)
    {
      pricingBreakdown := Some(breakdown);
      totalPrice := breakdown.total;
      advanceAmount := breakdown.advance as real;
      balanceAmount := breakdown.balance;
    }

    /** Re-splits a positive total at 30 %; a total of 0 or less changes nothing. */
    method CalculatePricing()
      modifies this
      ensures old(totalPrice) <= 0.0 ==> Snapshot() == old(Snapshot())
      ensures old(totalPrice) > 0.0 ==> Snapshot() == old(Snapshot()).(
        advanceAmount := ThirtyPercentAdvance(old(totalPrice)) as real,
        balanceAmount := old(totalPrice) - ThirtyPercentAdvance(old(totalPrice)) as real)
    {
      var total := totalPrice;
      if total > 0.0 {
        var advance := Round(total * 0.3);
        advanceAmount := advance as real;
        balanceAmount := total - advance as real;
      }
    }

    /** Restores initialState. */
    method ResetForm()
      modifies this
      ensures Snapshot() == InitialState
    {
      Load(InitialState);
    }
  }
}
