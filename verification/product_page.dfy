/**
 The product page: finding the product named by the route slug, the page's
 local selection state (size, image, tab) and the values it renders from that
 state, including the price and the chat message that quotes it.
 */
module ProductPage {
  import opened Js
  import opened Decimal
  import opened Rational
  import opened Pricing

  /** The fields of a catalog product that the page derives something from. */
  datatype Product = Product(
    slug: string,
    name: string,
    basePrice: Rat,
    image: string,
    images: seq<string>,
    description: string,
    benefits: seq<string>)

  // ---------------------------------------------------------------------------
  // Lookup by slug

  /** `i` is the position of the first product whose slug is `slug`. */
  ghost predicate FirstWithSlug(products: seq<Product>, slug: string, i: int) {
    && 0 <= i < |products|
    && products[i].slug == slug
    && forall j :: 0 <= j < i ==> products[j].slug != slug
  }

  /** `products.find(p => p.slug === slug)`, as the position of the match. */
  function FindBySlug(products: seq<Product>, slug: string): (r: Option<nat>)
    ensures r.Some? ==> FirstWithSlug(products, slug, r.value)
    ensures r.None? <==> forall j :: 0 <= j < |products| ==> products[j].slug != slug
    decreases |products|
  {
    if |products| == 0 then None
    else if products[0].slug == slug then Some(0)
    else
      match FindBySlug(products[1..], slug)
      case Some(i) =>
        assert products[1..][i] == products[i + 1];
        Some(i + 1)
      case None =>
        assert forall j :: 1 <= j < |products| ==> products[j] == products[1..][j - 1];
        None
  }

  // ---------------------------------------------------------------------------
  // Selection state

  const DescriptionTab: string := "description"
  const BenefitsTab: string := "benefits"

  /** The page's three pieces of local state. */
  datatype Selection = Selection(selectedSize: nat, selectedImage: nat, activeTab: string)

  /** The state a freshly mounted page starts in. */
  const Initial: Selection := Selection(0, 0, DescriptionTab)

  /** A click on one of the page's buttons. */
  datatype Click =
    | SizeButton(index: nat)
    | ThumbnailButton(index: nat)
    | TabButton(tab: string)

  /**
   The buttons the page renders: one size button per catalog entry, one
   thumbnail per image but only when there is more than one image, and the two
   tab buttons.
   */
  predicate Offered(click: Click, catalogSize: nat, imageCount: nat) {
    match click
    case SizeButton(i) => i < catalogSize
    case ThumbnailButton(i) => imageCount > 1 && i < imageCount
    case TabButton(t) => t == DescriptionTab || t == BenefitsTab
  }

  /** The state update a click performs; each button sets exactly one component. */
  function Step(s: Selection, click: Click): (r: Selection)
    ensures click.SizeButton? ==> r.selectedSize == click.index
    ensures click.ThumbnailButton? ==> r.selectedImage == click.index
    ensures click.TabButton? ==> r.activeTab == click.tab
    ensures click.SizeButton? ==> r.selectedImage == s.selectedImage && r.activeTab == s.activeTab
    ensures click.ThumbnailButton? ==> r.selectedSize == s.selectedSize && r.activeTab == s.activeTab
    ensures click.TabButton? ==> r.selectedSize == s.selectedSize && r.selectedImage == s.selectedImage
  {
    match click
    case SizeButton(i) => s.(selectedSize := i)
    case ThumbnailButton(i) => s.(selectedImage := i)
    case TabButton(t) => s.(activeTab := t)
  }

  /** The state after a sequence of clicks. */
  function Run(s: Selection, clicks: seq<Click>): Selection
    decreases |clicks|
  {
    if |clicks| == 0 then s else Run(Step(s, clicks[0]), clicks[1..])
  }

  /**
   The selected size indexes the catalog, the selected image is either the
   initial 0 or indexes the images, and the tab is one of the two tab names.
   */
  ghost predicate Valid(s: Selection, catalogSize: nat, imageCount: nat) {
    && s.selectedSize < catalogSize
    && (s.selectedImage == 0 || s.selectedImage < imageCount)
    && (s.activeTab == DescriptionTab || s.activeTab == BenefitsTab)
  }

  lemma InitialValid(catalogSize: nat, imageCount: nat)
    requires catalogSize > 0
    ensures Valid(Initial, catalogSize, imageCount)
    ensures Initial.selectedSize == 0 && Initial.selectedImage == 0 && Initial.activeTab == "description"
  {
  }

  lemma StepPreservesValid(s: Selection, click: Click, catalogSize: nat, imageCount: nat)
    requires Valid(s, catalogSize, imageCount)
    requires Offered(click, catalogSize, imageCount)
    ensures Valid(Step(s, click), catalogSize, imageCount)
  {
  }

  /** No sequence of clicks on rendered buttons leads out of the valid states. */
  lemma {:induction false} RunPreservesValid(s: Selection, clicks: seq<Click>, catalogSize: nat, imageCount: nat)
    requires Valid(s, catalogSize, imageCount)
    requires forall k :: 0 <= k < |clicks| ==> Offered(clicks[k], catalogSize, imageCount)
    ensures Valid(Run(s, clicks), catalogSize, imageCount)
    decreases |clicks|
  {
    if |clicks| > 0 {
      StepPreservesValid(s, clicks[0], catalogSize, imageCount);
      assert forall k :: 0 <= k < |clicks| - 1 ==> clicks[1..][k] == clicks[k + 1];
      RunPreservesValid(Step(s, clicks[0]), clicks[1..], catalogSize, imageCount);
    }
  }

  // ---------------------------------------------------------------------------
  // Rendered values

  /** `product.images[selectedImage] || product.image`. */
  function MainImage(p: Product, selectedImage: nat): (r: string)
    ensures selectedImage < |p.images| && p.images[selectedImage] != "" ==> r == p.images[selectedImage]
    ensures selectedImage >= |p.images| || p.images[selectedImage] == "" ==> r == p.image
  {
    FirstTruthy([if selectedImage < |p.images| then Some(p.images[selectedImage]) else None], p.image)
  }

  /** The thumbnail strip: every image, but only when there is more than one. */
  function Thumbnails(p: Product): (r: seq<string>)
    ensures |r| > 0 <==> |p.images| > 1
    ensures |r| > 0 ==> r == p.images
  {
    if |p.images| > 1 then p.images else []
  }

  /** The content below the tab buttons. */
  datatype Panel =
    | DescriptionPanel(heading: string, text: string)
    | BenefitsPanel(items: seq<string>)

  function TabPanel(p: Product, activeTab: string): (r: Panel)
    ensures r.DescriptionPanel? <==> activeTab == DescriptionTab
    ensures r.DescriptionPanel? ==> r.heading == p.name && r.text == p.description
    ensures r.BenefitsPanel? ==> r.items == p.benefits
  {
    if activeTab == DescriptionTab then DescriptionPanel(p.name, p.description)
    else BenefitsPanel(p.benefits)
  }

  const Rupee: string := "₹"

  /** The price line: the rupee sign, the price and a fixed ".00". */
  function PriceText(price: int): (r: string)
    ensures |r| >= 5 && r[..1] == Rupee && r[|r| - 3..] == ".00"
    ensures ParseInt(r[1..|r| - 3]) == Some(price)
    ensures Canonical(r[1..|r| - 3])
  {
    ParseIntToString(price);
    var r := Rupee + IntToString(price) + ".00";
    assert r[1..|r| - 3] == IntToString(price);
    r
  }

  /** The chat message text up to the price. */
  function ChatPrefix(name: string, sizeLabel: string): string {
    "Hi, I'm interested in " + name + " (" + sizeLabel + ") - " + Rupee
  }

  /** The chat message: the prefix naming product and size, then the price. */
  function ChatMessage(name: string, sizeLabel: string, price: int): (r: string)
    ensures var prefix := ChatPrefix(name, sizeLabel);
            && |prefix| < |r| && r[..|prefix|] == prefix
            && ParseInt(r[|prefix|..]) == Some(price)
            && Canonical(r[|prefix|..])
  {
    ParseIntToString(price);
    var prefix := ChatPrefix(name, sizeLabel);
    var r := prefix + IntToString(price);
    assert r[|prefix|..] == IntToString(price);
    r
  }

  /** The chat link: the contact link with the URI-encoded message as `text`; the encoder is a parameter. */
  function ChatUrl(whatsappLink: string, encode: string -> string, message: string): (r: string)
    ensures |r| >= |whatsappLink| + 6 && r[..|whatsappLink|] == whatsappLink
    ensures r[|whatsappLink|..|whatsappLink| + 6] == "?text="
    ensures r[|whatsappLink| + 6..] == encode(message)
  {
    whatsappLink + "?text=" + encode(message)
  }

  /** Everything the product view derives from the product, the catalog and the selection. */
  datatype ProductView = ProductView(
    mainImage: string,
    thumbnails: seq<string>,
    sizeLabels: seq<string>,
    price: int,
    priceText: string,
    chatMessage: string,
    panel: Panel)

  function SizeLabels(catalog: Catalog): (r: seq<string>)
    ensures |r| == |catalog|
    ensures forall i :: 0 <= i < |r| ==> r[i] == catalog[i].sizeLabel
  {
    seq(|catalog|, i requires 0 <= i < |catalog| => catalog[i].sizeLabel)
  }

  function RenderProduct(p: Product, catalog: Catalog, s: Selection): (v: ProductView)
    requires s.selectedSize < |catalog|
    ensures RoundsTo(Mul(p.basePrice, catalog[s.selectedSize].multiplier), v.price)
    ensures |v.sizeLabels| == |catalog|
  {
    var price := CurrentPrice(p.basePrice, catalog, s.selectedSize);
    ProductView(
      MainImage(p, s.selectedImage),
      Thumbnails(p),
      SizeLabels(catalog),
      price,
      PriceText(price),
      ChatMessage(p.name, catalog[s.selectedSize].sizeLabel, price),
      TabPanel(p, s.activeTab))
  }

  /** What the route renders: the not-found view or the product view. */
  datatype Page = NotFound | Found(view: ProductView)

  function RenderPage(products: seq<Product>, catalog: Catalog, slug: string, s: Selection): (r: Page)
    requires FindBySlug(products, slug).Some? ==> s.selectedSize < |catalog|
    ensures r.NotFound? <==> forall j :: 0 <= j < |products| ==> products[j].slug != slug
    ensures forall i :: FirstWithSlug(products, slug, i) ==> r == Found(RenderProduct(products[i], catalog, s))
  {
    match FindBySlug(products, slug)
    case None => NotFound
    case Some(i) => Found(RenderProduct(products[i], catalog, s))
  }

  // ---------------------------------------------------------------------------
  // Properties of the rendered page

  /**
   The chat message quotes the price that is displayed: after the fixed prefix
   naming the product and the selected size's label it holds exactly the
   digits shown in the price line, and those read back as the current price.
   */
  lemma ChatQuotesDisplayedPrice(p: Product, catalog: Catalog, s: Selection)
    requires s.selectedSize < |catalog|
    ensures var v := RenderProduct(p, catalog, s);
            var prefix := ChatPrefix(p.name, catalog[s.selectedSize].sizeLabel);
            && |prefix| <= |v.chatMessage|
            && v.chatMessage[..|prefix|] == prefix
            && 1 <= |v.priceText| - 3
            && v.chatMessage[|prefix|..] == v.priceText[1..|v.priceText| - 3]
            && v.priceText[..1] == Rupee
            && ParseInt(v.chatMessage[|prefix|..]) == Some(CurrentPrice(p.basePrice, catalog, s.selectedSize))
  {
    var price := CurrentPrice(p.basePrice, catalog, s.selectedSize);
    var v := RenderProduct(p, catalog, s);
    var prefix := ChatPrefix(p.name, catalog[s.selectedSize].sizeLabel);
    assert v.chatMessage == prefix + IntToString(price);
    assert v.chatMessage[|prefix|..] == IntToString(price);
    assert v.priceText[1..|v.priceText| - 3] == IntToString(price);
    ParseIntToString(price);
  }

  /**
   Two chat links that name the same product and size label are equal only
   when they quote the same price, provided the encoder tells the two messages
   apart. The two prices may come from different products, base prices,
   catalogs or selections: the link alone determines the price.
   */
  lemma ChatUrlDeterminesPrice(whatsappLink: string, encode: string -> string,
                               name: string, sizeLabel: string, price: int, price': int)
    requires var m, m' := ChatMessage(name, sizeLabel, price), ChatMessage(name, sizeLabel, price');
             encode(m) == encode(m') ==> m == m'
    requires ChatUrl(whatsappLink, encode, ChatMessage(name, sizeLabel, price))
          == ChatUrl(whatsappLink, encode, ChatMessage(name, sizeLabel, price'))
    ensures price == price'
  {
    var m, m' := ChatMessage(name, sizeLabel, price), ChatMessage(name, sizeLabel, price');
    var prefix := ChatPrefix(name, sizeLabel);
    var u := ChatUrl(whatsappLink, encode, m);
    assert encode(m) == u[|whatsappLink| + 6..] == encode(m');
    assert m[|prefix|..] == m'[|prefix|..];
  }

  /** The description panel shows exactly when the active tab is "description"; initially it does. */
  lemma PanelFollowsTab(p: Product, catalog: Catalog, s: Selection)
    requires s.selectedSize < |catalog|
    ensures RenderProduct(p, catalog, s).panel.DescriptionPanel? <==> s.activeTab == "description"
    ensures RenderProduct(p, catalog, s).panel.BenefitsPanel? <==> s.activeTab != "description"
    ensures RenderProduct(p, catalog, Initial).panel == DescriptionPanel(p.name, p.description)
  {
  }

  /**
   In the initial state the main image is the first image if there is a
   non-empty one, and otherwise the product's fallback image, which covers a
   product with no images at all.
   */
  lemma InitialMainImage(p: Product, catalog: Catalog)
    ensures |p.images| > 0 && p.images[0] != "" ==> RenderProduct(p, catalog, Initial).mainImage == p.images[0]
    ensures |p.images| == 0 ==> RenderProduct(p, catalog, Initial).mainImage == p.image
  {
  }

  /**
   The click domain is the set of buttons the view renders: a size button for
   every size label shown and a thumbnail button for every thumbnail shown.
   */
  lemma OfferedAreRendered(p: Product, catalog: Catalog, s: Selection, i: nat)
    requires s.selectedSize < |catalog|
    ensures Offered(SizeButton(i), |catalog|, |p.images|) <==> i < |RenderProduct(p, catalog, s).sizeLabels|
    ensures Offered(ThumbnailButton(i), |catalog|, |p.images|) <==> i < |RenderProduct(p, catalog, s).thumbnails|
  {
  }

  /**
   Clicking the i-th size button makes the chat message name the label shown
   on that button.
   */
  lemma SizeButtonNamesItsLabel(p: Product, catalog: Catalog, s: Selection, i: nat)
    requires s.selectedSize < |catalog|
    requires i < |RenderProduct(p, catalog, s).sizeLabels|
    ensures var shown := RenderProduct(p, catalog, s).sizeLabels[i];
            var v := RenderProduct(p, catalog, Step(s, SizeButton(i)));
            var prefix := ChatPrefix(p.name, shown);
            |prefix| < |v.chatMessage| && v.chatMessage[..|prefix|] == prefix
  {
  }

  /**
   Clicking the i-th thumbnail makes that thumbnail the main image, or the
   fallback image when the thumbnail is empty.
   */
  lemma ThumbnailBecomesMainImage(p: Product, catalog: Catalog, s: Selection, i: nat)
    requires s.selectedSize < |catalog|
    requires i < |RenderProduct(p, catalog, s).thumbnails|
    ensures var t := RenderProduct(p, catalog, s).thumbnails[i];
            var v := RenderProduct(p, catalog, Step(s, ThumbnailButton(i)));
            && (t != "" ==> v.mainImage == t)
            && (t == "" ==> v.mainImage == p.image)
  {
  }

  /** The number of images of the product the route shows; the not-found view shows none. */
  function ShownImageCount(products: seq<Product>, slug: string): nat {
    match FindBySlug(products, slug)
    case None => 0
    case Some(i) => |products[i].images|
  }

  lemma FoundImageCount(products: seq<Product>, slug: string, i: int)
    requires FirstWithSlug(products, slug, i)
    ensures ShownImageCount(products, slug) == |products[i].images|
  {
    var r := FindBySlug(products, slug);
    assert r.Some?;
    assert !(r.value < i) && !(i < r.value);
  }

  /**
   Starting from a fresh page and clicking only buttons the page renders, the
   price can always be computed: the selected size stays a catalog index, and
   the selected image stays 0 or an index of the shown product's images.
   */
  lemma ClicksKeepPriceDefined(products: seq<Product>, catalog: Catalog, slug: string, clicks: seq<Click>)
    requires forall k :: 0 <= k < |clicks| ==> Offered(clicks[k], |catalog|, ShownImageCount(products, slug))
    ensures Run(Initial, clicks).selectedSize < |catalog|
    ensures forall i :: FirstWithSlug(products, slug, i) ==>
              Run(Initial, clicks).selectedImage == 0 || Run(Initial, clicks).selectedImage < |products[i].images|
    ensures RenderPage(products, catalog, slug, Run(Initial, clicks)).Found?
            <==> exists i :: 0 <= i < |products| && products[i].slug == slug
  {
    var n := ShownImageCount(products, slug);
    var r := Run(Initial, clicks);
    InitialValid(|catalog|, n);
    RunPreservesValid(Initial, clicks, |catalog|, n);
    forall i | FirstWithSlug(products, slug, i)
      ensures r.selectedImage == 0 || r.selectedImage < |products[i].images|
    {
      FoundImageCount(products, slug, i);
    }
    var page := RenderPage(products, catalog, slug, r);
    assert page.NotFound? <==> forall j :: 0 <= j < |products| ==> products[j].slug != slug;
  }
}
