/**
 Concrete scenarios: an illustrative two-size catalog on the product page, and
 the settings manager's default record rendered by the footer.
 */
module Scenarios {
  import opened Js
  import opened Decimal
  import opened Rational
  import opened Pricing
  import opened ProductPage
  import opened Footer

  const SampleCatalog: Catalog := [SizeVariant("500g", Rat(9, 2)), SizeVariant("1kg", Rat(17, 2))]

  const Almonds: Product := Product("almonds", "Almonds", FromInt(500), "almonds.jpg", [], "Crunchy.", ["Protein"])

  /** 500 at multipliers 4.5 and 8.5 gives 2250 and 4250; an unknown slug gives the not-found view. */
  lemma SampleCatalogPrices()
    ensures CurrentPrice(FromInt(500), SampleCatalog, 0) == 2250
    ensures CurrentPrice(FromInt(500), SampleCatalog, 1) == 4250
    ensures RenderPage([Almonds], SampleCatalog, "almonds", Run(Initial, [SizeButton(1)]))
         == Found(RenderProduct(Almonds, SampleCatalog, Selection(1, 0, "description")))
    ensures RenderProduct(Almonds, SampleCatalog, Initial).mainImage == "almonds.jpg"
    ensures RenderPage([Almonds], SampleCatalog, "cashews", Initial) == NotFound
  {
    RoundExact(Mul(FromInt(500), Rat(9, 2)), 2250);
    RoundExact(Mul(FromInt(500), Rat(17, 2)), 4250);
    assert FirstWithSlug([Almonds], "almonds", 0);
  }

  /** After choosing the second size, the chat message quotes 4250. */
  lemma SampleChatMessage()
    ensures RenderProduct(Almonds, SampleCatalog, Selection(1, 0, "description")).chatMessage
         == "Hi, I'm interested in Almonds (1kg) - ₹4250"
  {
    SampleCatalogPrices();
    assert IntToString(4250) == "4250" by {
      assert NatToString(4) == "4";
      assert NatToString(42) == "42";
      assert NatToString(425) == "425";
    }
    assert ChatMessage("Almonds", "1kg", 4250) == ChatPrefix("Almonds", "1kg") + IntToString(4250);
    assert ChatPrefix("Almonds", "1kg") + "4250" == "Hi, I'm interested in Almonds (1kg) - ₹4250";
  }

  /** 99 at multiplier 1.5, written as 15/10, is 148.5, which the page shows as 149. */
  lemma HalfwayPriceShownRoundedUp()
    ensures CurrentPrice(FromInt(99), [SizeVariant("250g", Rat(15, 10))], 0) == 149
  {
    HalfPriceRoundsUp(FromInt(99), [SizeVariant("250g", Rat(15, 10))], 0, 148);
  }

  /** The settings manager's default record: no logo, no page styles, no social links. */
  const DefaultSettings: SiteSettings :=
    SiteSettings(Some(""), Some("9870990795"), Some("info@dryfruto.com"), None, None, None, None, None)

  lemma DefaultSettingsFooter()
    ensures RenderFooter(DefaultSettings).logo == PlaceholderLogo
    ensures RenderFooter(DefaultSettings).colors == FooterColors("#2d1810", "#fef3c7", "#f59e0b")
    ensures !RenderFooter(DefaultSettings).showSocial
  {
    DefaultsWithoutGlobalScope(DefaultSettings);
    SocialSectionShown(DefaultSettings);
    assert forall n :: !Truthy(LinkOf(DefaultSettings, n));
  }

  /** The default record's phone and email in the footer's links. */
  lemma DefaultSettingsContacts()
    ensures CallLink(DefaultSettings) == "tel:+919870990795"
    ensures ShownNumber(DefaultSettings) == "+91 9870990795"
    ensures MailLink(DefaultSettings) == "mailto:info@dryfruto.com"
  {
    CallLinkDialsShownNumber(DefaultSettings);
    assert "tel:+91" + "9870990795" == "tel:+919870990795";
    assert "+91 " + "9870990795" == "+91 9870990795";
    assert "mailto:" + "info@dryfruto.com" == "mailto:info@dryfruto.com";
  }

  /** A `global` footerBg wins over headerBg; absent one, headerBg is used. */
  lemma GlobalBackgroundScenario()
    ensures var styled := DefaultSettings.(pageStyles := Some(map["global" := EmptyScope.(footerBg := Some("#111"), headerBg := Some("#222"))]));
            Colors(styled).background == "#111"
    ensures var styled := DefaultSettings.(pageStyles := Some(map["global" := EmptyScope.(footerBg := Some(""), headerBg := Some("#222"))]));
            Colors(styled).background == "#222"
  {
    BackgroundPrecedence(DefaultSettings.(pageStyles := Some(map["global" := EmptyScope.(footerBg := Some("#111"), headerBg := Some("#222"))])));
    BackgroundPrecedence(DefaultSettings.(pageStyles := Some(map["global" := EmptyScope.(footerBg := Some(""), headerBg := Some("#222"))])));
  }
}
