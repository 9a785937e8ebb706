/** The album-pages control of step 3. Each handler computes the page
    count it hands to onPagesChange; None means the callback is not called.
    The panel also displays the extra pages and their cost. */
module AlbumPanel {
  import opened Money
  import opened Seqs

  /** The page count below which the panel never goes, and its reset value. */
  const BasePages: int := 60

  /** The default of the pricePerTenPages prop. */
  const DefaultPricePerTenPages: real := 500.0

  /** handleIncrement: always asks for ten more pages. */
  function PagesIncrement(pages: int): Option<int> {
    Some(pages + 10)
  }

  /** handleDecrement: asks for ten fewer pages only above the base. */
  function PagesDecrement(pages: int): Option<int> {
    if pages > BasePages then Some(pages - 10) else None
  }

  /** The Reset button: asks for exactly the base page count. */
  function PagesReset(): Option<int> {
    Some(BasePages)
  }

  /** The pages after a handler ran: the requested value, or unchanged. */
  function After(pages: int, request: Option<int>): int {
    match request
    case Some(p) => p
    case None => pages
  }

  /** A prop that was left out takes its default. */
  function PricePerTenPages(prop: Option<real>): real {
    match prop
    case Some(p) => p
    case None => DefaultPricePerTenPages
  }

  /** Math.max(0, pages - 60). */
  function ExtraPages(pages: int): (r: int)
    ensures r >= 0 && r >= pages - BasePages
    ensures r == pages - BasePages || r == 0
  {
    Max0Int(pages - BasePages)
  }

  /** (extraPages / 10) * pricePerTenPages, with no rounding. */
  function ExtraCost(pages: int, pricePerTenPages: Option<real>): real {
    ExtraPages(pages) as real / 10.0 * PricePerTenPages(pricePerTenPages)
  }

  /** A page count the controls can reach from the base: 60 + 10k. */
  predicate OnGrid(pages: int) {
    pages >= BasePages && (pages - BasePages) % 10 == 0
  }
}

/** What the album-pages control promises. */
module AlbumPanelProperties {
  import opened Types
  import opened Money
  import opened Seqs
  import opened PricingService
  import opened AlbumPanel

  /** Every handler keeps the page count of the form 60 + 10k. */
  lemma HandlersStayOnGrid(pages: int)
    requires OnGrid(pages)
    ensures OnGrid(After(pages, PagesIncrement(pages)))
    ensures OnGrid(After(pages, PagesDecrement(pages)))
    ensures OnGrid(After(pages, PagesReset()))
  {
    assert (pages + 10 - 60) % 10 == (pages - 60) % 10;
    if pages > 60 {
      assert (pages - 10 - 60) % 10 == (pages - 60) % 10;
    }
  }

  /** Plus then minus, or minus then plus above the base, returns to the
      starting count. */
  lemma IncrementDecrementInverse(pages: int)
    requires pages >= BasePages
    ensures After(pages + 10, PagesDecrement(pages + 10)) == pages
    ensures pages > BasePages ==> After(pages - 10, PagesIncrement(pages - 10)) == pages
  {
  }

  /** At the base there is neither an extra page nor an extra cost. */
  lemma NoExtraAtBase(pages: int, price: Option<real>)
    requires pages <= BasePages
    ensures ExtraPages(pages) == 0 && ExtraCost(pages, price) == 0.0
  {
  }

  /** On the grid 60 + 10k the displayed extra cost is k times the price per
      ten pages, 500 when the prop is left out. */
  lemma ExtraCostPerTen(k: nat, price: Option<real>)
    ensures ExtraPages(BasePages + 10 * k) == 10 * k
    ensures ExtraCost(BasePages + 10 * k, price) == k as real * PricePerTenPages(price)
    ensures price.None? ==> ExtraCost(BasePages + 10 * k, price) == 500.0 * k as real
  {
    assert (10 * k) as real / 10.0 == k as real;
  }

  /** With a 60-page base and the same price per ten pages, the engine's
      extra-pages charge is the displayed cost, rounded. */
  lemma DisplayedCostMatchesEngine(pages: int, albumType: string, conf: AlbumConfiguration)
    requires conf.basePages == 60.0
    ensures AlbumPricingOf(AlbumConfig(pages, albumType), conf).extraPagesCost
         == Round(ExtraCost(pages, Some(conf.per10PagesCost)))
  {
    assert Max0(pages as real - conf.basePages) == ExtraPages(pages) as real;
  }

  /** A button press on the control. */
  datatype Press = Plus | Minus | ResetPages

  function Handle(pages: int, p: Press): Option<int> {
    match p
    case Plus => PagesIncrement(pages)
    case Minus => PagesDecrement(pages)
    case ResetPages => PagesReset()
  }

  /** The page count after a series of presses, each applied through
      updateAlbumConfig({ pages }). */
  function Run(pages: int, presses: seq<Press>): int
    decreases |presses|
  {
    if |presses| == 0 then pages else Run(After(pages, Handle(pages, presses[0])), presses[1..])
  }

  /** From the initial 60 pages, or any 60 + 10k, every series of presses
      ends on 60 + 10k' pages. */
  lemma {:induction false} RunStaysOnGrid(pages: int, presses: seq<Press>)
    requires OnGrid(pages)
    ensures OnGrid(Run(pages, presses))
    decreases |presses|
  {
    if |presses| > 0 {
      HandlersStayOnGrid(pages);
      RunStaysOnGrid(After(pages, Handle(pages, presses[0])), presses[1..]);
    }
  }
}
