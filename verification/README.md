# DryFruto storefront: price derivation and footer settings, in Dafny

This project models the two pieces of decision logic in the DryFruto storefront
frontend, a catalog site for a dry-fruit retailer.

- **Product page** (`frontend/src/pages/ProductPage.jsx`). The page finds the product
  whose `slug` matches the route. If none matches, it shows a not-found view. Otherwise
  it keeps three pieces of local state: the selected size, the selected image and the
  active tab. The price shown is `Math.round(basePrice * multiplier)`, where the
  multiplier belongs to the selected entry of the size catalog. The chat message quotes
  that same price. The main image falls back to `product.image`. Thumbnails appear only
  when the product has more than one image.
- **Footer** (`frontend/src/components/layout/Footer.jsx`). From the site settings the
  footer derives a logo, with a placeholder when none is set, and the `tel:+91…` and
  `mailto:` links. It resolves three colours through "first truthy value, else built-in
  default" chains, reading only the `global` style scope. It also keeps the social
  links that are configured, in the fixed order Facebook, Instagram, Twitter, YouTube.

Modules:

- `Js` (js.dfy). JavaScript value semantics. `Option<string>` stands for a field that
  may be `undefined`. `Truthy` is the test behind `||`. `FirstTruthy` is an `a || b || default`
  chain. `TemplateText` and `JsxText` turn an absent value into text: a template literal
  prints `undefined`, while a JSX child prints nothing. `Footer.CallLinkDialsShownNumber`
  shows where that difference becomes visible.
- `Decimal` (decimal.dfy). How an integral number is printed, and a parser that inverts it.
- `Rational` (rational.dfy). Exact rationals stand in for JavaScript numbers. `Round` is
  `Math.round`, i.e. floor(x + 1/2): the nearest integer, with halves going toward +infinity.
- `Pricing` (pricing.dfy). The size catalog is a parameter: a non-empty sequence of
  (label, multiplier). `CurrentPrice` computes the price.
- `ProductPage` (product_page.dfy). Slug lookup, the selection state machine, the
  rendered values and the chat message.
- `Footer` (footer.dfy). Logo, links, colours, social links and the assembled footer.
- `Scenarios` (scenarios.dfy). Concrete instances. One uses the settings manager's
  default record (`frontend/src/pages/admin/SettingsManager.jsx:9-17`).

What the code does not do, and the model therefore does not either:

- There is no per-size price override table. The price is always the rounded product
  of base price and multiplier (`frontend/src/pages/ProductPage.jsx:29`).
- There is no per-page style tier above `global`. The footer reads only
  `pageStyles.global` (`frontend/src/components/layout/Footer.jsx:13`).
- There is no missing-base-price error. JavaScript would compute `NaN`, which the
  model does not represent.

## Model

| member | source | states |
|---|---|---|
| Rational.Round | frontend/src/pages/ProductPage.jsx:29 | The result r satisfies r - 1/2 <= x < r + 1/2, the half-open interval `Math.round` maps to r. |
| Rational.RoundUnique | frontend/src/pages/ProductPage.jsx:29 | Only one integer lies in that interval, so `Round` is fully determined by it. |
| Rational.RoundExact | frontend/src/pages/ProductPage.jsx:29 | An integral value comes back unchanged. |
| Rational.RoundHalfUp | frontend/src/pages/ProductPage.jsx:29 | k + 1/2 rounds to k + 1 for every integer k, negatives included (round half toward +infinity, as `Math.round` does). |
| Rational.RoundMonotone | frontend/src/pages/ProductPage.jsx:29 | a <= b implies Round(a) <= Round(b). |
| Rational.MulMonotone | frontend/src/pages/ProductPage.jsx:29 | Multiplying by a non-negative base price keeps the order of two multipliers. |
| Pricing.CurrentPrice | frontend/src/pages/ProductPage.jsx:29 | The price is basePrice × multiplier of the selected catalog entry, rounded to the nearest integer with halves up. The selected size must index the catalog. |
| Pricing.PriceMonotoneInMultiplier | frontend/src/pages/ProductPage.jsx:29 | With basePrice >= 0, a size with a larger multiplier never shows a smaller price. |
| Pricing.AscendingCatalogPrices | frontend/src/pages/ProductPage.jsx:29 | In a catalog whose multipliers do not decrease, a later size never costs less than an earlier one. |
| Pricing.IntegralPriceUnrounded | frontend/src/pages/ProductPage.jsx:29 | When basePrice × multiplier is a whole number k, the price is exactly k. |
| Pricing.HalfPriceRoundsUp | frontend/src/pages/ProductPage.jsx:29 | When basePrice × multiplier has the value k + 1/2, however the fractions are written, the price is k + 1. |
| ProductPage.FindBySlug | frontend/src/pages/ProductPage.jsx:14 | Returns the position of the first product whose slug equals the route slug. Returns nothing exactly when no product has that slug. |
| ProductPage.RenderPage | frontend/src/pages/ProductPage.jsx:14-29 | The not-found view appears iff no product matches. Otherwise the page is the view of the first match, and the price is needed only in that case. |
| ProductPage.InitialValid | frontend/src/pages/ProductPage.jsx:10-12 | The initial state is size 0, image 0, tab "description", and it is a valid state for any non-empty catalog. |
| ProductPage.Step | frontend/src/pages/ProductPage.jsx:73-193 | A size button sets the selected size to its index (line 116), a thumbnail sets the selected image to its index (line 76), and a tab button sets the active tab to its name (lines 183, 193). Each leaves the other two components unchanged. |
| ProductPage.StepPreservesValid | frontend/src/pages/ProductPage.jsx:71-116 | Clicking a rendered button keeps three things true: the size indexes the catalog, the image is 0 or indexes the images, and the tab is one of the two names. |
| ProductPage.RunPreservesValid | frontend/src/pages/ProductPage.jsx:71-193 | The same holds after any sequence of clicks on rendered buttons. |
| ProductPage.Offered | frontend/src/pages/ProductPage.jsx:71-123 | The click domain: a size button per catalog entry, a thumbnail button per image only when there are two or more images, and the two tab buttons. |
| ProductPage.OfferedAreRendered | frontend/src/pages/ProductPage.jsx:71-123 | A size or thumbnail click is in the click domain iff its index is below the number of size labels or thumbnails the view renders. |
| ProductPage.SizeButtonNamesItsLabel | frontend/src/pages/ProductPage.jsx:113-123 | After clicking the i-th size button, the chat message (line 32) names the label shown on that button. |
| ProductPage.ThumbnailBecomesMainImage | frontend/src/pages/ProductPage.jsx:66-76 | After clicking the i-th thumbnail, the main image is that thumbnail, or the fallback image when the thumbnail is empty. |
| ProductPage.ClicksKeepPriceDefined | frontend/src/pages/ProductPage.jsx:10-29 | From a fresh page, any sequence of clicks on the buttons the route renders leaves the selected size a catalog index and the selected image 0 or an index of the shown product's images (lines 73-76). The page is found iff some product has the slug. |
| ProductPage.MainImage | frontend/src/pages/ProductPage.jsx:66 | The main image is the selected image when that element exists and is non-empty; otherwise it is the product's fallback image. |
| ProductPage.InitialMainImage | frontend/src/pages/ProductPage.jsx:66 | Initially the main image is the first image if that is non-empty. A product with no images shows its fallback image. |
| ProductPage.Thumbnails | frontend/src/pages/ProductPage.jsx:71-73 | Thumbnails are shown iff there is more than one image, and then they are all the images. |
| ProductPage.SizeLabels | frontend/src/pages/ProductPage.jsx:113-123 | One size button per catalog entry, in catalog order, each with its label. |
| ProductPage.TabPanel | frontend/src/pages/ProductPage.jsx:205-224 | The description panel (name and description) shows iff the tab is "description". Otherwise the benefits list shows. |
| ProductPage.PanelFollowsTab | frontend/src/pages/ProductPage.jsx:205 | For the rendered view: description iff the tab is "description", benefits otherwise, and description in the initial state. |
| ProductPage.RenderProduct | frontend/src/pages/ProductPage.jsx:29 | The view's price is the selected size's rounded price, and there is one size label per catalog entry. |
| ProductPage.ChatQuotesDisplayedPrice | frontend/src/pages/ProductPage.jsx:29-32 | The chat message is "Hi, I'm interested in <name> (<selected label>) - ₹" followed by exactly the digits in the "₹….00" price line (line 132). Those digits read back as the current price. |
| ProductPage.ChatUrl | frontend/src/pages/ProductPage.jsx:33 | The chat link is the contact link, then exactly "?text=", then the encoded message. The encoder is a parameter. |
| ProductPage.ChatUrlDeterminesPrice | frontend/src/pages/ProductPage.jsx:32-33 | Two equal chat links that name the same product and size label quote the same price, whenever the encoder tells the two messages apart. The prices may come from any products, base prices, catalogs or selections, so the link alone determines the price. |
| ProductPage.ChatMessage | frontend/src/pages/ProductPage.jsx:32 | The message starts with "Hi, I'm interested in <name> (<label>) - ₹", and the rest is the price's canonical numeral: no leading zeros, and it reads back as the price. |
| ProductPage.PriceText | frontend/src/pages/ProductPage.jsx:132 | The price line is "₹", then the price's canonical numeral (no leading zeros, reads back as the price), then ".00". |
| Decimal.IntToString | frontend/src/pages/ProductPage.jsx:32 | An integer prints as non-empty text. The text is all digits iff the integer is non-negative, and starts with "-" iff it is negative. It has no leading zeros, as JavaScript prints integers. |
| Decimal.NatToString | frontend/src/pages/ProductPage.jsx:132 | A number prints as a non-empty run of digits with no leading zero. |
| Decimal.ParseNatToString | frontend/src/pages/ProductPage.jsx:132 | Reading the printed digits back gives the original number. |
| Decimal.ParseIntToString | frontend/src/pages/ProductPage.jsx:32 | The printed integer parses back to itself, so the message text carries the price value. |
| Decimal.IntToStringInjective | frontend/src/pages/ProductPage.jsx:32 | Different prices print differently. |
| Js.FirstTruthy | frontend/src/components/layout/Footer.jsx:13-16 | The result is the first candidate that is present and non-empty. If there is none, it is the fallback, and a non-empty fallback makes the result non-empty. |
| Footer.LogoUrl | frontend/src/components/layout/Footer.jsx:9 | The logo setting when it is non-empty, otherwise the placeholder URL; never empty. |
| Footer.CallLink | frontend/src/components/layout/Footer.jsx:10 | The call link is "tel:+91" followed by the phone. A missing phone gives "tel:+91undefined". |
| Footer.ShownNumber | frontend/src/components/layout/Footer.jsx:117 | The shown number is "+91 " followed by the phone. A missing phone gives just "+91 ". |
| Footer.MailLink | frontend/src/components/layout/Footer.jsx:125 | The mail link is "mailto:" followed by the email. A missing email gives "mailto:undefined". |
| Footer.CallLinkDialsShownNumber | frontend/src/components/layout/Footer.jsx:10-117 | The call link dials the shown number iff a phone is set. Without one, the link dials "+91undefined" while the page shows a bare "+91 ". With an email set, the mail link is "mailto:" + email (line 125). |
| Footer.GlobalScope | frontend/src/components/layout/Footer.jsx:13 | Styles come from the `global` scope. They are empty when page styles or that scope are absent. |
| Footer.Colors | frontend/src/components/layout/Footer.jsx:14-16 | For every settings value, all three resolved colours are non-empty. |
| Footer.BackgroundPrecedence | frontend/src/components/layout/Footer.jsx:14 | Background is `global.footerBg` if truthy, else `global.headerBg` if truthy, else "#2d1810". |
| Footer.TextPrecedence | frontend/src/components/layout/Footer.jsx:15 | Text colour is `global.footerText` if truthy, else "#fef3c7". |
| Footer.LinkPrecedence | frontend/src/components/layout/Footer.jsx:16 | Link colour is `global.footerLink` if truthy, else `global.accentColor` if truthy, else "#f59e0b". |
| Footer.DefaultsWithoutGlobalScope | frontend/src/components/layout/Footer.jsx:13-16 | Without page styles, or without a `global` scope, all three colours are their defaults. |
| Footer.OnlyGlobalScopeMatters | frontend/src/components/layout/Footer.jsx:13 | Two settings whose `global` scopes agree resolve to the same colours, whatever their other scopes hold. |
| Footer.Candidates | frontend/src/components/layout/Footer.jsx:19-23 | Four candidates in the fixed order Facebook, Instagram, Twitter, YouTube, each with its own settings link. |
| Footer.KeepConfigured | frontend/src/components/layout/Footer.jsx:24 | The filter keeps no more entries than it is given, and every kept link is non-empty. |
| Footer.KeptAreCandidates | frontend/src/components/layout/Footer.jsx:24 | Every kept entry is a candidate whose link is kept unchanged. |
| Footer.ConfiguredAreKept | frontend/src/components/layout/Footer.jsx:24 | Every candidate with a truthy link is kept. |
| Footer.KeptInOrder | frontend/src/components/layout/Footer.jsx:19-24 | The kept entries keep the candidates' order (strictly increasing rank), so the result is an order-preserving subsequence with no repeats. |
| Footer.SocialLinks | frontend/src/components/layout/Footer.jsx:19-24 | At most four links, in the fixed order. Each carries its network's configured non-empty link, and every configured network appears. |
| Footer.SocialSectionShown | frontend/src/components/layout/Footer.jsx:49 | A network is shown iff its link is truthy. The social section renders iff at least one link is configured. |
| Footer.RenderFooter | frontend/src/components/layout/Footer.jsx:9-49 | The footer has a non-empty logo, three non-empty colours, at most four social links, and a social section iff some link is configured. |
| Scenarios.SampleCatalogPrices | frontend/src/pages/ProductPage.jsx:14-29 | With base price 500, multipliers 4.5 and 8.5 give 2250 and 4250. Clicking the second size renders the view for size 1. An unknown slug gives the not-found view. |
| Scenarios.SampleChatMessage | frontend/src/pages/ProductPage.jsx:32 | After the second size is chosen, the message reads "Hi, I'm interested in Almonds (1kg) - ₹4250". |
| Scenarios.HalfwayPriceShownRoundedUp | frontend/src/pages/ProductPage.jsx:29 | 99 × 15/10 = 148.5 is shown as 149. |
| Scenarios.DefaultSettingsFooter | frontend/src/pages/admin/SettingsManager.jsx:9-17 | The settings manager's default record gives the placeholder logo, the default colours and no social section. |
| Scenarios.DefaultSettingsContacts | frontend/src/pages/admin/SettingsManager.jsx:13-14 | For that record the footer shows "tel:+919870990795", "+91 9870990795" and "mailto:info@dryfruto.com". |
| Scenarios.GlobalBackgroundScenario | frontend/src/components/layout/Footer.jsx:14 | A `global` footerBg of "#111" wins over headerBg. An empty footerBg falls through to headerBg "#222". |

## Left out

- Floating point: `basePrice * multiplier` is computed on exact rationals. Representation error for multipliers such as 0.1 is not modelled.
- `basePrice` missing or not numeric: JavaScript would show `NaN`. The model's base price is always a rational.
- The size catalog and product list of the `data/mock` module, and the `DataContext` settings source, are not part of this model. They are parameters: the catalog is any non-empty sequence, and settings are any `SiteSettings` value.
- Pricing.Catalog: the model requires a non-empty catalog. With an empty one the page would throw on `sizeVariants[0]`, and that failure is not modelled.
- Decimal.IntToString: integers of magnitude 10^21 or more, which JavaScript prints in exponent notation, are printed as plain digits here. Negative zero prints as "0", as in JavaScript.
- Footer.CallLink: a `null` phone and an absent one are both `None`. The source would print "tel:+91null" for `null`; the model prints "tel:+91undefined" for both.
- Footer.MailLink: likewise a `null` email gives "mailto:null" in the source and "mailto:undefined" in the model.
- `encodeURIComponent` is a function parameter of `ProductPage.ChatUrl`. `window.open`, the call button's `CONTACT_INFO.callLink` (taken verbatim from the data module), routing (`useParams`, `Link`) and `useData` are foreign calls.
- Selection state across navigation: React keeps the page's state when only the slug changes. The model takes the selection as given, so a stale image index falls back to `product.image` as in the source.
- Display-only pass-through fields: SKU, short description, features, business name, slogan, address and the footer's category list. They are rendered verbatim and nothing is derived from them.
- All JSX layout, CSS classes and icons.
- `frontend/src/pages/admin/SettingsManager.jsx`: HTTP fetch and save, alerts, and loading and saving flags around async calls. Its default record is used only as a concrete settings value in `Scenarios`.
