/**
 * The `AmazonINScraper` object: a browser slot, an append-only list of
 * results, one scrape per pincode with a guaranteed page close, and the
 * final save into the record sink. Browser operations are not modelled;
 * their outcomes arrive as parameters.
 */
module Scraper {
  import opened Wrappers
  import opened Listing
  import opened Harvest
  import opened Sink

  /** The search URL up to the point where the pincode is pasted in. */
  const SearchUrlPrefix := "https://www.amazon.in/s?k=laptops&pincode="

  /** The file `saveResults` writes. */
  const OutputFile := "scraped_data.ndjson.gz"

  /** The URL `scrapeAmazon` visits: plain concatenation, no encoding of the pincode. */
  function SearchUrl(pincode: string): (url: string)
    ensures |url| == |SearchUrlPrefix| + |pincode|
    ensures url[..|SearchUrlPrefix|] == SearchUrlPrefix
    ensures url[|SearchUrlPrefix|..] == pincode
  {
    SearchUrlPrefix + pincode
  }

  /** Recovers the pincode from a search URL, or None for any other string. */
  function PincodeOf(url: string): (pincode: Option<string>)
  {
    if |SearchUrlPrefix| <= |url| && url[..|SearchUrlPrefix|] == SearchUrlPrefix
    then Some(url[|SearchUrlPrefix|..])
    else None
  }

  /** A URL is a search URL exactly when the pincode read back from it yields it again. */
  lemma SearchUrlParse(url: string, pincode: string)
    ensures PincodeOf(url) == Some(pincode) <==> url == SearchUrl(pincode)
  {
    if PincodeOf(url) == Some(pincode) {
      assert url == url[..|SearchUrlPrefix|] + url[|SearchUrlPrefix|..];
    }
  }

  /** Different pincodes give different URLs: nothing of the pincode is lost or rewritten. */
  lemma SearchUrlInjective(p: string, q: string)
    requires SearchUrl(p) == SearchUrl(q)
    ensures p == q
  {
    SearchUrlParse(SearchUrl(p), p);
    SearchUrlParse(SearchUrl(q), q);
  }

  /** The browser instance `puppeteer.launch()` resolves to. */
  datatype BrowserHandle = BrowserHandle(id: nat)

  /**
   * A page `browser.newPage()` resolved to, with the outcome of every later
   * call on it: whether `goto` and `evaluate` resolve, whether `close`
   * resolves, and the `.s-result-item` containers of the rendered document.
   */
  datatype Page = Page(id: nat, gotoOk: bool, evaluateOk: bool, closeOk: bool, listing: seq<Element>)

  /** The rejections that escape the scraper's methods to their caller. */
  datatype ScrapeError =
    | LaunchFailed        // `puppeteer.launch()` rejected; rethrown by initialize
    | BrowserMissing      // `this.browser` is null, so `this.browser.newPage` throws
    | NewPageFailed       // `newPage()` rejected, before the try block
    | PageCloseFailed     // `page.close()` in the finally block rejected
    | BrowserCloseFailed  // `browser.close()` rejected

  /** The calls the scraper makes on the browser and its pages. */
  datatype Event =
    | PageOpened(page: nat)
    | Navigated(page: nat, url: string)
    | Evaluated(page: nat)
    | PageClosed(page: nat)
    | BrowserClosed(browser: nat)

  /** The calls on a page during one scrape, from its creation to its close. */
  function Session(pincode: string, p: Page): (events: seq<Event>)
  {
    [PageOpened(p.id), Navigated(p.id, SearchUrl(pincode))]
    + (if p.gotoOk then [Evaluated(p.id)] else [])
    + [PageClosed(p.id)]
  }

  /** How many times a trace closes the given page. */
  function Closes(events: seq<Event>, page: nat): (n: nat)
  {
    if events == [] then 0
    else Closes(events[..|events| - 1], page) + (if events[|events| - 1] == PageClosed(page) then 1 else 0)
  }

  /** Close counts add up over concatenated traces. */
  lemma {:induction false} ClosesAppend(a: seq<Event>, b: seq<Event>, page: nat)
    ensures Closes(a + b, page) == Closes(a, page) + Closes(b, page)
    decreases |b|
  {
    if b == [] {
      assert a + b == a;
    } else {
      assert (a + b)[..|a + b| - 1] == a + b[..|b| - 1];
      ClosesAppend(a, b[..|b| - 1], page);
    }
  }

  /** A trace with no page-close call closes no page. */
  lemma {:induction false} ClosesNone(events: seq<Event>, page: nat)
    requires forall i :: 0 <= i < |events| ==> !events[i].PageClosed?
    ensures Closes(events, page) == 0
  {
    if events != [] {
      ClosesNone(events[..|events| - 1], page);
    }
  }

  /**
   * Every session opens its page first, closes it last and exactly once,
   * whether or not `goto` resolved, and navigates only to the pincode's URL.
   */
  lemma SessionClosesOnce(pincode: string, p: Page)
    ensures Session(pincode, p)[0] == PageOpened(p.id)
    ensures Session(pincode, p)[|Session(pincode, p)| - 1] == PageClosed(p.id)
    ensures Closes(Session(pincode, p), p.id) == 1
    ensures forall i :: 0 <= i < |Session(pincode, p)| && Session(pincode, p)[i].Navigated? ==>
      Session(pincode, p)[i].url == SearchUrl(pincode)
  {
    var s := Session(pincode, p);
    var front := [PageOpened(p.id), Navigated(p.id, SearchUrl(pincode))]
      + (if p.gotoOk then [Evaluated(p.id)] else []);
    assert s == front + [PageClosed(p.id)];
    ClosesAppend(front, [PageClosed(p.id)], p.id);
    assert [PageClosed(p.id)][..0] == [];
    ClosesNone(front, p.id);
  }

  class AmazonINScraper {
    /** Every record scraped so far, in the order the scrapes returned them. */
    var results: seq<Record>
    /** The browser instance, or None while `this.browser` is null. */
    var browser: Option<BrowserHandle>
    /** The calls made on the browser and its pages so far. */
    ghost var events: seq<Event>

    constructor ()
      ensures results == [] && browser == None && events == []
    {
      results := [];
      browser := None;
      events := [];
    }

    /** `initialize`: `launch` is what `puppeteer.launch()` resolves to, None when it rejects. */
    method Initialize(launch: Option<BrowserHandle>) returns (outcome: Outcome<ScrapeError>)
      modifies this
      ensures launch.Some? ==> browser == launch && outcome == Pass
      ensures launch.None? ==> browser == old(browser) && outcome == Fail(LaunchFailed)
      ensures results == old(results) && events == old(events)
    {
      match launch {
        case Some(b) =>
          browser := Some(b);
          outcome := Pass;
        case None =>
          outcome := Fail(LaunchFailed);
      }
    }

    /**
     * `scrapeAmazon(pincode)`: `page` is what `newPage()` resolves to, None
     * when it rejects. Failures of `goto` and `evaluate` are caught and add
     * nothing; the page is closed in every case once it exists.
     */
    method ScrapeAmazon(pincode: string, page: Option<Page>) returns (outcome: Outcome<ScrapeError>)
      modifies this
      ensures browser == old(browser)
      ensures old(browser) == None ==>
        outcome == Fail(BrowserMissing) && results == old(results) && events == old(events)
      ensures old(browser).Some? && page == None ==>
        outcome == Fail(NewPageFailed) && results == old(results) && events == old(events)
      ensures old(browser).Some? && page.Some? ==>
        events == old(events) + Session(pincode, page.value)
      ensures old(browser).Some? && page.Some? ==>
        |events| > |old(events)| && events[|events| - 1] == PageClosed(page.value.id)
        && Closes(events[|old(events)|..], page.value.id) == 1
      ensures old(browser).Some? && page.Some? && page.value.gotoOk && page.value.evaluateOk ==>
        results == old(results) + Harvested(page.value.listing)
      ensures old(browser).Some? && page.Some? && !(page.value.gotoOk && page.value.evaluateOk) ==>
        results == old(results)
      ensures old(browser).Some? && page.Some? ==>
        outcome == if page.value.closeOk then Pass else Fail(PageCloseFailed)
    {
      if browser == None {
        return Fail(BrowserMissing);
      }
      if page == None {
        return Fail(NewPageFailed);
      }
      var p := page.value;
      events := events + [PageOpened(p.id)];
      // try
      var url := SearchUrl(pincode);
      events := events + [Navigated(p.id, url)];
      if p.gotoOk {
        events := events + [Evaluated(p.id)];
        if p.evaluateOk {
          var laptops := HarvestPage(p.listing);
          results := results + laptops;
        }
      }
      // finally
      events := events + [PageClosed(p.id)];
      outcome := if p.closeOk then Pass else Fail(PageCloseFailed);
      assert events[|old(events)|..] == Session(pincode, p);
      SessionClosesOnce(pincode, p);
    }

    /**
     * `closeBrowser`: closes the browser when there is one. The field is not
     * reset, so a second call closes the same browser again.
     */
    method CloseBrowser(closeOk: bool) returns (outcome: Outcome<ScrapeError>)
      modifies this
      ensures browser == old(browser) && results == old(results)
      ensures old(browser) == None ==> events == old(events) && outcome == Pass
      ensures old(browser).Some? ==>
        events == old(events) + [BrowserClosed(old(browser).value.id)]
        && outcome == if closeOk then Pass else Fail(BrowserCloseFailed)
    {
      if browser.Some? {
        events := events + [BrowserClosed(browser.value.id)];
        outcome := if closeOk then Pass else Fail(BrowserCloseFailed);
      } else {
        outcome := Pass;
      }
    }

    /**
     * `saveResults`: writes every result, in order, into a new sink for the
     * output file and then ends it once. The scraper itself is not changed.
     */
    method SaveResults() returns (sink: RecordSink)
      ensures fresh(sink) && sink.destination == OutputFile
      ensures sink.ops == Writes(results) + [Ended]
      ensures sink.Written() == results && EndCount(sink.ops) == 1
    {
      sink := new RecordSink(OutputFile);
      var i := 0;
      while i < |results|
        invariant 0 <= i <= |results|
        invariant sink.ops == Writes(results[..i])
      {
        assert results[..i + 1][..i] == results[..i];
        sink.Write(results[i]);
        i := i + 1;
      }
      assert results[..i] == results;
      sink.End();
      SaveTrace(results);
    }
  }
}
