/** Client code driving the scraper as its callers do, using only the contracts above. */
module Scenario {
  import opened Wrappers
  import opened Listing
  import opened Harvest
  import opened Sink
  import opened Scraper

  /** A container with every selector matched, and an asin. */
  function FullContainer(asin: string, name: string, price: string): (e: Element)
  {
    Element(Some(asin),
      map[ProductNameSelector := Node(name, map[]),
          DescriptionSelector := Node("desc", map[]),
          CategorySelector := Node("Laptops", map[]),
          MrpSelector := Node(price, map[]),
          SellingPriceSelector := Node(price, map[]),
          DiscountSelector := Node(price, map[]),
          WeightSelector := Node("1.5 kg", map[]),
          BrandNameSelector := Node("Brand", map[]),
          ImageSelector := Node("", map["src" := "https://img/" + asin]),
          LaptopSpecificationSelector := Node("16 GB", map[])],
      false)
  }

  lemma FullContainerRecord(asin: string, name: string, price: string)
    ensures var r := BuildRecord(FullContainer(asin, name, price));
      r.sku == asin && r.mrp == price && r.sellingPrice == price
  {
  }

  /** A container with every selector matched by non-empty text gives a record with no empty field. */
  lemma FullContainerPopulated(asin: string, name: string, price: string)
    requires asin != "" && name != "" && price != ""
    ensures var r := BuildRecord(FullContainer(asin, name, price));
      r.sku != "" && r.productName != "" && r.productTitle != "" && r.description != ""
      && r.category != "" && r.mrp != "" && r.sellingPrice != "" && r.discount != ""
      && r.weight != "" && r.brandName != "" && r.imageUrl != Str("") && r.imageUrl != Null
      && r.laptopSpecification != ""
  {
    var e := FullContainer(asin, name, price);
    assert e.matches[ImageSelector].attributes["src"] == "https://img/" + asin;
  }

  /** The same container with both price elements missing. */
  function NoPriceContainer(asin: string, name: string): (e: Element)
  {
    var full := FullContainer(asin, name, "");
    full.(matches := full.matches - {MrpSelector, SellingPriceSelector})
  }

  lemma NoPriceContainerRecord(asin: string, name: string)
    ensures var r := BuildRecord(NoPriceContainer(asin, name));
      r.sku == asin && r.mrp == "" && r.sellingPrice == ""
  {
  }

  /** The three containers of the scenario below; the second lacks both price elements. */
  function ThreeContainers(): (listing: seq<Element>)
  {
    [FullContainer("A1", "one", "Rs 100"), NoPriceContainer("A2", "two"),
     FullContainer("A3", "three", "Rs 300")]
  }

  /** Harvesting the three containers gives three records, prices empty only in the second. */
  lemma ThreeContainersHarvest()
    ensures var rs := Harvested(ThreeContainers());
      |rs| == 3
      && rs[0] == BuildRecord(FullContainer("A1", "one", "Rs 100"))
      && rs[1] == BuildRecord(NoPriceContainer("A2", "two"))
      && rs[2] == BuildRecord(FullContainer("A3", "three", "Rs 300"))
      && rs[0].sku == "A1" && rs[1].sku == "A2" && rs[2].sku == "A3"
      && rs[1].mrp == "" && rs[1].sellingPrice == ""
      && rs[0].mrp == "Rs 100" && rs[2].sellingPrice == "Rs 300"
  {
    var listing := ThreeContainers();
    assert !listing[0].throws && !listing[1].throws && !listing[2].throws;
    HarvestedNoThrow(listing);
    FullContainerRecord("A1", "one", "Rs 100");
    NoPriceContainerRecord("A2", "two");
    FullContainerRecord("A3", "three", "Rs 300");
  }

  /**
   * Pincode "560001": a page holding the three containers is scraped and
   * saved. Three records reach the sink in container order, only the second
   * has empty prices, and the page was visited at the pincode's URL and
   * closed once.
   */
  method ScrapeAndSaveThree(b: BrowserHandle) returns (written: seq<Record>)
    ensures |written| == 3
    ensures written[0].sku == "A1" && written[1].sku == "A2" && written[2].sku == "A3"
    ensures written[1].mrp == "" && written[1].sellingPrice == ""
    ensures written[0].mrp == "Rs 100" && written[2].sellingPrice == "Rs 300"
    ensures written[0] == BuildRecord(FullContainer("A1", "one", "Rs 100"))
    ensures written[1] == BuildRecord(NoPriceContainer("A2", "two"))
    ensures written[2] == BuildRecord(FullContainer("A3", "three", "Rs 300"))
  {
    var s := new AmazonINScraper();
    var init := s.Initialize(Some(b));
    var page := Page(7, true, true, true, ThreeContainers());
    var outcome := s.ScrapeAmazon("560001", Some(page));
    assert outcome == Pass;
    SessionClosesOnce("560001", page);
    assert s.events == Session("560001", page);
    assert Closes(s.events, 7) == 1;
    var sink := s.SaveResults();
    assert sink.IsEnded();
    written := sink.Written();
    assert written == Harvested(ThreeContainers());
    ThreeContainersHarvest();
  }

  /** A failed navigation adds nothing, yet the page is still closed once. */
  method FailedNavigationKeepsResults(b: BrowserHandle, listing: seq<Element>)
    returns (count: nat, ghost closes: nat)
    ensures count == 0
    ensures closes == 1
  {
    var s := new AmazonINScraper();
    var init := s.Initialize(Some(b));
    var page := Page(1, false, true, true, listing);
    var outcome := s.ScrapeAmazon("110001", Some(page));
    SessionClosesOnce("110001", page);
    assert s.events == Session("110001", page);
    closes := Closes(s.events, 1);
    count := |s.results|;
  }

  /** Closing twice closes the same browser twice: `closeBrowser` is not idempotent. */
  method CloseTwice(b: BrowserHandle) returns (stillSet: bool, ghost calls: seq<Event>)
    ensures stillSet
    ensures calls == [BrowserClosed(b.id), BrowserClosed(b.id)]
  {
    var s := new AmazonINScraper();
    var init := s.Initialize(Some(b));
    var first := s.CloseBrowser(true);
    var second := s.CloseBrowser(true);
    calls := s.events;
    stillSet := s.browser.Some?;
  }
}
