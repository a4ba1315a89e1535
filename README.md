# Amazon India laptop scraper: a Dafny model

The repository is `scrapper.js`, a class `AmazonINScraper` with four jobs:
- it launches a headless browser;
- for each pincode it opens a page on the search URL for "laptops" and
  extracts one record per `.s-result-item` listing inside the page;
- it appends those records to its `results` array;
- it streams the array as gzipped NDJSON into `scraped_data.ndjson.gz`.

This project models the sequential core under the browser, DOM and stream
calls. The browser and the DOM are abstract inputs.

- `wrappers.dfy`, module `Wrappers`: `Option` and `Outcome`. An `Outcome`
  is the settlement of an async call: it resolves or it rejects.
- `listing.dfy`, module `Listing`: a listing container (`Element`)
  carries three things:
  - its optional `data-asin`;
  - for each CSS selector, the first node the selector matches, with that
    node's `innerText` and attributes;
  - whether reading the element throws.

  `BuildRecord` builds the twelve-field record the object literal builds.
  `Extract` is the per-element try/catch: a whole record, or none.
  `Entries` lists the record's key/value pairs in literal order.
- `harvest.dfy`, module `Harvest`: the `page.evaluate` callback.
  - `HarvestPage` is the `forEach`/`push` loop, proved equal to the
    function `Harvested`.
  - Lemmas prove that `Harvested` keeps the non-throwing containers in
    document order and drops the throwing ones.
- `sink.dfy`, module `Sink`: the head of the ndjson → gzip → file pipeline.
  It is a `RecordSink` object that records every operation it receives:
  `Wrote(record)` or `Ended`.
- `scraper.dfy`, module `Scraper`: the class `AmazonINScraper`.
  - Its fields are `results`, `browser` (None stands for `null`) and a
    ghost trace `events` of the calls made on the browser and its pages.
  - Its methods are `Initialize`, `ScrapeAmazon`, `CloseBrowser` and
    `SaveResults`.
  - Every browser call's outcome is a parameter:
    - `launch` is what `puppeteer.launch()` resolves to;
    - `page` is what `newPage()` resolves to, or None when it rejects;
    - the flags in `Page` say whether `goto`, `evaluate` and `close`
      resolve.
- `scenario.dfy`, module `Scenario`: client methods that use only the
  contracts:
  - pincode "560001" with three containers, where the second has no price
    elements;
  - a failed navigation;
  - two `closeBrowser` calls in a row.

Three behaviours of the code are kept as written:
- `closeBrowser` is not idempotent. It never resets `browser`, so a
  second call closes the same browser again (`Scenario.CloseTwice`).
- `imageUrl` can be `null`, not only a string. The value comes from
  `getAttribute("src")` on an existing `.s-image` node, so `Value` has a
  `Null` case.
- Some failures escape `scrapeAmazon` to its caller:
  - a missing browser, because `this.browser.newPage` throws outside the
    try block;
  - a rejected `newPage()`;
  - a rejected `page.close()` in the finally block.

  Only `goto` and `evaluate` failures are caught.

## Model

| member | source | states |
|---|---|---|
| Listing.Sku | scrapper.js:39 | SKU is "" exactly when `dataset.asin` is absent or empty; otherwise it is the asin |
| Listing.ImageUrl | scrapper.js:86-89 | "" when no `.s-image` node exists; otherwise the node's `src` attribute, `null` when that attribute is missing |
| Listing.BuildRecord | scrapper.js:39-95 | each text field is the innerText of its selector's first match, or "" when there is none; productTitle always equals productName (both use `h2 span`) |
| Listing.NoMatchAllEmpty | scrapper.js:39-95 | with no asin and no matching node, every field is the empty string |
| Listing.ImageUrlIgnoresText | scrapper.js:86-89 | imageUrl does not change when the image node's text changes: it is read from the attribute |
| Listing.RecordDependsOnSelectorsOnly | scrapper.js:39-95 | two elements with the same SKU and the same matches for the listed selectors give the same record |
| Listing.Extract | scrapper.js:37-118 | an element that throws contributes no record; any other element contributes its full record |
| Listing.Entries | scrapper.js:98-112 | the record object has twelve keys, in the literal's order, starting with SKU |
| Listing.RecordKeysDistinct | scrapper.js:98-112 | the twelve keys are pairwise distinct |
| Listing.EntriesRoundTrip | scrapper.js:98-112 | reading a record's key/value pairs back gives the same record |
| Listing.FromEntriesExact | scrapper.js:98-112 | a key/value sequence that reads back as record r is exactly r's pairs, so each key is bound to its own field |
| Harvest.HarvestPage | scrapper.js:33-121 | the push loop returns exactly `Harvested(elements)` |
| Harvest.HarvestedAppend | scrapper.js:34-36 | the harvest of a concatenation of containers is the concatenation of the harvests (document order is kept) |
| Harvest.HarvestedSingle | scrapper.js:36-119 | one container gives one whole record, or none when it throws |
| Harvest.HarvestedLength | scrapper.js:34-121 | number of records plus number of throwing containers equals the number of containers; never more records than containers |
| Harvest.HarvestedNoThrow | scrapper.js:36-119 | when no container throws, record i is the record of container i |
| Harvest.KeptPositions | scrapper.js:36-119 | the kept positions are in range, belong to non-throwing containers, strictly increase, and include every non-throwing container |
| Harvest.HarvestedAtKept | scrapper.js:36-119 | there are as many records as kept positions, and record k is the record of the container at kept position k |
| Harvest.HarvestedIsKept | scrapper.js:34-121 | record k is the full record of the k-th non-throwing container: positions strictly increase, and every non-throwing container appears |
| Sink.RecordSink.constructor | scrapper.js:139-144 | a new sink for the named file has received nothing |
| Sink.RecordSink.Write | scrapper.js:147 | a write appends that record to the sink's trace |
| Sink.RecordSink.End | scrapper.js:150 | end appends one Ended to the sink's trace |
| Sink.WritesFaithful | scrapper.js:146-148 | one write per record, in order: the records written are exactly the input, with no end |
| Sink.SaveTrace | scrapper.js:146-150 | the save trace writes exactly the results in order and ends once; zero results give only the end |
| Scraper.SearchUrl | scrapper.js:30 | the URL is the fixed prefix followed by the pincode, unencoded |
| Scraper.SearchUrlParse | scrapper.js:30 | a URL yields pincode p when parsed if and only if it is the search URL of p |
| Scraper.SearchUrlInjective | scrapper.js:30 | different pincodes give different URLs |
| Scraper.SessionClosesOnce | scrapper.js:25-129 | a scrape opens its page first and closes it last, exactly once, whether or not `goto` resolved; the only URL visited is the pincode's |
| Scraper.AmazonINScraper.constructor | scrapper.js:8-11 | results start empty and the browser is null |
| Scraper.AmazonINScraper.Initialize | scrapper.js:14-21 | the browser is set only when launch resolves; a rejected launch is rethrown and the field is not changed |
| Scraper.AmazonINScraper.ScrapeAmazon | scrapper.js:24-130 | results become old results plus the page's harvest when goto and evaluate both resolve, and stay unchanged otherwise; once a page exists, the new events are exactly its session, and that page is closed exactly once, as the last call; a missing browser or a rejected newPage escapes with nothing changed; a rejected close escapes |
| Scraper.AmazonINScraper.CloseBrowser | scrapper.js:132-136 | close is called only when a browser is set; the field is never reset, so each call closes again |
| Scraper.AmazonINScraper.SaveResults | scrapper.js:138-153 | a new sink for `scraped_data.ndjson.gz` receives every result in order and then one end; the scraper is not modified |
| Scenario.FullContainerPopulated | scrapper.js:39-112 | a container whose selectors all match non-empty text, with a non-empty asin and an image `src`, gives a record with no empty field and a non-null imageUrl |
| Scenario.ThreeContainersHarvest | scrapper.js:34-121 | three containers that do not throw give three records, in container order, each the full record of its container; the second container has no price nodes, so its mrp and sellingPrice are "" |
| Scenario.ScrapeAndSaveThree | scrapper.js:24-153 | scraping pincode 560001 with three containers and saving writes three records in container order, each the full record of its container; the second has mrp and sellingPrice "", while the first and third keep their prices |
| Scenario.FailedNavigationKeepsResults | scrapper.js:124-129 | a rejected goto adds no results, and the page is closed exactly once (the returned close count is 1) |
| Scenario.CloseTwice | scrapper.js:132-136 | after two closeBrowser calls the browser field is still set, and the calls made are exactly two closes of the same browser |

## Left out

- Puppeteer internals are not modelled: launching, page creation, navigation and waiting, and the isolated context of `page.evaluate`. Their outcomes are parameters (`launch`, `page`, the flags of `Page`).
- CSS selector matching and DOM traversal are not modelled. An element carries the first match of each selector as given data. So the model cannot say which node `.a-offscreen` (the discount) finds first. That depends on document order, and it may be the mrp or the price node.
- What can make extraction throw is not modelled. It is one flag per element (`Element.throws`).
- JSON encoding by ndjson, gzip compression and the file write stream are not modelled, because they are foreign libraries. The model keeps only the ordered operations handed to the head of the pipeline.
- Async scheduling and stream flushing are not modelled. That includes the "saved" message being logged before the piped streams have flushed.
- All `console.log` and `console.error` calls are left out, because they are side effects only.
- The URL is built exactly as the code builds it. The pincode is not URL-encoded.
