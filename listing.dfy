/**
 * The per-element extraction done inside the page for each `.s-result-item`
 * container: twelve fields, each the text (or, for the image, the `src`
 * attribute) of the first descendant matching a fixed CSS selector, or ""
 * when nothing matches.
 */
module Listing {
  import opened Wrappers

  /** An element returned by `querySelector`: its rendered text and its attributes. */
  datatype Node = Node(innerText: string, attributes: map<string, string>)

  /**
   * A listing container as the DOM presents it. `asin` is `dataset.asin`
   * (the `data-asin` attribute, absent as None); `matches` gives, for each
   * selector, the first descendant that matches it (selector matching itself
   * is not modelled); `throws` says whether reading this element raises an
   * exception somewhere during extraction.
   */
  datatype Element = Element(asin: Option<string>, matches: map<string, Node>, throws: bool)

  /** A JavaScript value stored in a record field: a string or `null`. */
  datatype Value = Str(s: string) | Null

  /** One scraped laptop, fields in the order the object literal lists them. */
  datatype Record = Record(
    sku: string,
    productName: string,
    productTitle: string,
    description: string,
    category: string,
    mrp: string,
    sellingPrice: string,
    discount: string,
    weight: string,
    brandName: string,
    imageUrl: Value,
    laptopSpecification: string)

  const ProductNameSelector := "h2 span"
  const ProductTitleSelector := "h2 span"
  const DescriptionSelector := ".a-size-base"
  const CategorySelector := ".a-link-normal"
  const MrpSelector := ".a-text-price .a-offscreen"
  const SellingPriceSelector := ".a-price .a-offscreen"
  const DiscountSelector := ".a-offscreen"
  const WeightSelector := ".a-text-bold span"
  const BrandNameSelector := ".a-text-bold"
  const ImageSelector := ".s-image"
  const LaptopSpecificationSelector := ".a-unordered-list"

  /** The keys of a record object, in insertion order. */
  const RecordKeys: seq<string> := ["SKU", "productName", "productTitle", "description",
    "category", "mrp", "sellingPrice", "discount", "weight", "brandName", "imageUrl",
    "laptopSpecification"]

  /** `element.querySelector(selector)`: the first match, or no element. */
  function QuerySelector(e: Element, selector: string): (found: Option<Node>)
  {
    if selector in e.matches then Some(e.matches[selector]) else None
  }

  /** `node.getAttribute(name)`: the attribute's value, or `null` when it is not set. */
  function GetAttribute(n: Node, name: string): (v: Value)
  {
    if name in n.attributes then Str(n.attributes[name]) else Null
  }

  /** `el ? el.innerText : ""` for the element a selector finds. */
  function TextOrEmpty(e: Element, selector: string): (text: string)
  {
    match QuerySelector(e, selector)
    case Some(n) => n.innerText
    case None => ""
  }

  /** `dataset.asin || ""`: the empty string stands in for an absent or falsy asin. */
  function Sku(e: Element): (sku: string)
    ensures sku == "" <==> (e.asin == None || e.asin == Some(""))
    ensures sku != "" ==> e.asin == Some(sku)
  {
    if e.asin.Some? && e.asin.value != "" then e.asin.value else ""
  }

  /** `imgEl ? imgEl.getAttribute("src") : ""`. */
  function ImageUrl(e: Element): (url: Value)
    ensures ImageSelector !in e.matches ==> url == Str("")
    ensures ImageSelector in e.matches ==>
      (url == Null <==> "src" !in e.matches[ImageSelector].attributes)
    ensures ImageSelector in e.matches && "src" in e.matches[ImageSelector].attributes ==>
      url == Str(e.matches[ImageSelector].attributes["src"])
  {
    match QuerySelector(e, ImageSelector)
    case Some(n) => GetAttribute(n, "src")
    case None => Str("")
  }

  /**
   * The record built for an element when extraction does not throw: each
   * text field is the innerText of its selector's match, or "" without one.
   */
  function BuildRecord(e: Element): (r: Record)
    ensures r.sku == Sku(e)
    ensures ProductNameSelector in e.matches ==> r.productName == e.matches[ProductNameSelector].innerText
    ensures ProductNameSelector !in e.matches ==> r.productName == ""
    ensures r.productTitle == r.productName
    ensures DescriptionSelector in e.matches ==> r.description == e.matches[DescriptionSelector].innerText
    ensures DescriptionSelector !in e.matches ==> r.description == ""
    ensures CategorySelector in e.matches ==> r.category == e.matches[CategorySelector].innerText
    ensures CategorySelector !in e.matches ==> r.category == ""
    ensures MrpSelector in e.matches ==> r.mrp == e.matches[MrpSelector].innerText
    ensures MrpSelector !in e.matches ==> r.mrp == ""
    ensures SellingPriceSelector in e.matches ==> r.sellingPrice == e.matches[SellingPriceSelector].innerText
    ensures SellingPriceSelector !in e.matches ==> r.sellingPrice == ""
    ensures DiscountSelector in e.matches ==> r.discount == e.matches[DiscountSelector].innerText
    ensures DiscountSelector !in e.matches ==> r.discount == ""
    ensures WeightSelector in e.matches ==> r.weight == e.matches[WeightSelector].innerText
    ensures WeightSelector !in e.matches ==> r.weight == ""
    ensures BrandNameSelector in e.matches ==> r.brandName == e.matches[BrandNameSelector].innerText
    ensures BrandNameSelector !in e.matches ==> r.brandName == ""
    ensures r.imageUrl == ImageUrl(e)
    ensures LaptopSpecificationSelector in e.matches ==>
      r.laptopSpecification == e.matches[LaptopSpecificationSelector].innerText
    ensures LaptopSpecificationSelector !in e.matches ==> r.laptopSpecification == ""
  {
    Record(
      sku := Sku(e),
      productName := TextOrEmpty(e, ProductNameSelector),
      productTitle := TextOrEmpty(e, ProductTitleSelector),
      description := TextOrEmpty(e, DescriptionSelector),
      category := TextOrEmpty(e, CategorySelector),
      mrp := TextOrEmpty(e, MrpSelector),
      sellingPrice := TextOrEmpty(e, SellingPriceSelector),
      discount := TextOrEmpty(e, DiscountSelector),
      weight := TextOrEmpty(e, WeightSelector),
      brandName := TextOrEmpty(e, BrandNameSelector),
      imageUrl := ImageUrl(e),
      laptopSpecification := TextOrEmpty(e, LaptopSpecificationSelector))
  }

  /** The try block of the per-element callback: a whole record, or nothing when it throws. */
  function Extract(e: Element): (r: Option<Record>)
    ensures r == None <==> e.throws
    ensures r.Some? ==> r.value == BuildRecord(e)
  {
    if e.throws then None else Some(BuildRecord(e))
  }

  /** The record as the sequence of key/value pairs of the object literal, in key order. */
  function Entries(r: Record): (es: seq<(string, Value)>)
    ensures |es| == |RecordKeys| == 12
    ensures forall i :: 0 <= i < |es| ==> es[i].0 == RecordKeys[i]
  {
    [("SKU", Str(r.sku)), ("productName", Str(r.productName)),
     ("productTitle", Str(r.productTitle)), ("description", Str(r.description)),
     ("category", Str(r.category)), ("mrp", Str(r.mrp)),
     ("sellingPrice", Str(r.sellingPrice)), ("discount", Str(r.discount)),
     ("weight", Str(r.weight)), ("brandName", Str(r.brandName)),
     ("imageUrl", r.imageUrl), ("laptopSpecification", Str(r.laptopSpecification))]
  }

  /** Reads a record back from key/value pairs: exactly the twelve keys in order,
      every value a string except `imageUrl`, which may also be null. */
  function FromEntries(es: seq<(string, Value)>): (r: Option<Record>)
  {
    if |es| == 12
       && (forall i :: 0 <= i < 12 ==> es[i].0 == RecordKeys[i])
       && (forall i :: 0 <= i < 12 && i != 10 ==> es[i].1.Str?)
    then
      Some(Record(es[0].1.s, es[1].1.s, es[2].1.s, es[3].1.s, es[4].1.s, es[5].1.s,
                  es[6].1.s, es[7].1.s, es[8].1.s, es[9].1.s, es[10].1, es[11].1.s))
    else None
  }

  /** The twelve keys are pairwise distinct, so each names exactly one field. */
  lemma RecordKeysDistinct()
    ensures forall i, j :: 0 <= i < j < |RecordKeys| ==> RecordKeys[i] != RecordKeys[j]
  {
  }

  /** Reading the key/value pairs back yields the same record. */
  lemma EntriesRoundTrip(r: Record)
    ensures FromEntries(Entries(r)) == Some(r)
  {
  }

  /** Any key/value sequence that reads back as a record is that record's own pairs. */
  lemma FromEntriesExact(es: seq<(string, Value)>, r: Record)
    requires FromEntries(es) == Some(r)
    ensures Entries(r) == es
  {
    assert forall i :: 0 <= i < 12 && i != 10 ==> es[i].1 == Str(es[i].1.s);
    assert Entries(r) == es;
  }

  /** An element in which no selector matches and with no asin gives the all-empty record. */
  lemma NoMatchAllEmpty(e: Element)
    requires e.asin == None && e.matches == map[]
    ensures BuildRecord(e) == Record("", "", "", "", "", "", "", "", "", "", Str(""), "")
  {
  }

  /** The image URL comes from the `src` attribute, never from the image node's text. */
  lemma ImageUrlIgnoresText(e: Element, text: string)
    requires ImageSelector in e.matches
    ensures ImageUrl(e.(matches := e.matches[ImageSelector := e.matches[ImageSelector].(innerText := text)]))
            == ImageUrl(e)
  {
  }

  /** The record depends on nothing but the asin and the matches of the eleven selectors. */
  lemma RecordDependsOnSelectorsOnly(e: Element, f: Element)
    requires Sku(e) == Sku(f)
    requires forall sel :: sel in [ProductNameSelector, DescriptionSelector, CategorySelector,
               MrpSelector, SellingPriceSelector, DiscountSelector, WeightSelector,
               BrandNameSelector, ImageSelector, LaptopSpecificationSelector] ==>
               QuerySelector(e, sel) == QuerySelector(f, sel)
    ensures BuildRecord(e) == BuildRecord(f)
  {
  }
}
