/**
 The footer's values derived from the site settings: the logo with its
 placeholder, the call and mail links, the three colours resolved from the
 `global` style scope, and the configured social links.
 */
module Footer {
  import opened Js

  /** The colour slots of one style scope that the footer reads. */
  datatype StyleScope = StyleScope(
    headerBg: Option<string>,
    footerBg: Option<string>,
    footerText: Option<string>,
    footerLink: Option<string>,
    accentColor: Option<string>)

  const EmptyScope: StyleScope := StyleScope(None, None, None, None, None)

  /** The site settings record as far as the footer derives anything from it. */
  datatype SiteSettings = SiteSettings(
    logo: Option<string>,
    phone: Option<string>,
    email: Option<string>,
    facebookLink: Option<string>,
    instagramLink: Option<string>,
    twitterLink: Option<string>,
    youtubeLink: Option<string>,
    pageStyles: Option<map<string, StyleScope>>)

  const PlaceholderLogo: string :=
    "https://customer-assets.emergentagent.com/job_70b8c44d-b0eb-46ab-b798-c90870274405/artifacts/5olvlaa7_WhatsApp%20Image%202025-12-26%20at%2013.46.33.jpeg"

  const DefaultFooterBg: string := "#2d1810"
  const DefaultFooterText: string := "#fef3c7"
  const DefaultFooterLink: string := "#f59e0b"

  // ---------------------------------------------------------------------------
  // Logo and contact links

  /** `siteSettings.logo || placeholder`. */
  function LogoUrl(s: SiteSettings): (r: string)
    ensures Truthy(s.logo) ==> r == s.logo.value
    ensures !Truthy(s.logo) ==> r == PlaceholderLogo
    ensures r != ""
  {
    FirstTruthy([s.logo], PlaceholderLogo)
  }

  /** `tel:+91${phone}`; an absent phone is printed as "undefined". */
  function CallLink(s: SiteSettings): (r: string)
    ensures |r| >= 7 && r[..7] == "tel:+91"
    ensures s.phone.Some? ==> r[7..] == s.phone.value
    ensures s.phone.None? ==> r == "tel:+91undefined"
  {
    "tel:+91" + TemplateText(s.phone)
  }

  /** The number shown beside the call link: "+91 " and the phone as a JSX child. */
  function ShownNumber(s: SiteSettings): (r: string)
    ensures |r| >= 4 && r[..4] == "+91 "
    ensures s.phone.Some? ==> r[4..] == s.phone.value
    ensures s.phone.None? ==> r == "+91 "
  {
    "+91 " + JsxText(s.phone)
  }

  /** `mailto:${email}`; an absent email is printed as "undefined". */
  function MailLink(s: SiteSettings): (r: string)
    ensures |r| >= 7 && r[..7] == "mailto:"
    ensures s.email.Some? ==> r[7..] == s.email.value
    ensures s.email.None? ==> r == "mailto:undefined"
  {
    "mailto:" + TemplateText(s.email)
  }

  /**
   The call link dials the number that is shown exactly when a phone is set.
   Without one, the link dials "+91undefined" while the page shows a bare "+91 ".
   The mail link addresses the configured email.
   */
  lemma CallLinkDialsShownNumber(s: SiteSettings)
    ensures CallLink(s)[7..] == ShownNumber(s)[4..] <==> s.phone.Some?
    ensures s.phone.Some? ==> CallLink(s) == "tel:+91" + s.phone.value && ShownNumber(s) == "+91 " + s.phone.value
    ensures s.phone.None? ==> CallLink(s) == "tel:+91undefined" && ShownNumber(s) == "+91 "
    ensures s.email.Some? ==> MailLink(s) == "mailto:" + s.email.value
  {
    if s.phone.None? {
      assert CallLink(s)[7..] == "undefined";
      assert ShownNumber(s)[4..] == "";
    }
  }

  // ---------------------------------------------------------------------------
  // Colours

  /** `siteSettings.pageStyles?.global || {}`: only the `global` scope is ever read. */
  function GlobalScope(s: SiteSettings): (g: StyleScope)
    ensures s.pageStyles.None? ==> g == EmptyScope
    ensures s.pageStyles.Some? && "global" !in s.pageStyles.value ==> g == EmptyScope
    ensures s.pageStyles.Some? && "global" in s.pageStyles.value ==> g == s.pageStyles.value["global"]
  {
    match s.pageStyles
    case None => EmptyScope
    case Some(styles) => if "global" in styles then styles["global"] else EmptyScope
  }

  datatype FooterColors = FooterColors(background: string, text: string, link: string)

  /** The three footer colours, each the first truthy entry of its chain or its built-in default. */
  function Colors(s: SiteSettings): (c: FooterColors)
    ensures c.background != "" && c.text != "" && c.link != ""
  {
    var g := GlobalScope(s);
    FooterColors(
      FirstTruthy([g.footerBg, g.headerBg], DefaultFooterBg),
      FirstTruthy([g.footerText], DefaultFooterText),
      FirstTruthy([g.footerLink, g.accentColor], DefaultFooterLink))
  }

  /** The background: footerBg, else headerBg, else the default; each tier only when truthy. */
  lemma BackgroundPrecedence(s: SiteSettings)
    ensures var g := GlobalScope(s);
            && (Truthy(g.footerBg) ==> Colors(s).background == g.footerBg.value)
            && (!Truthy(g.footerBg) && Truthy(g.headerBg) ==> Colors(s).background == g.headerBg.value)
            && (!Truthy(g.footerBg) && !Truthy(g.headerBg) ==> Colors(s).background == DefaultFooterBg)
  {
    var g := GlobalScope(s);
    assert Truthy(g.footerBg) ==> FirstTruthyAt([g.footerBg, g.headerBg], 0);
    assert !Truthy(g.footerBg) && Truthy(g.headerBg) ==> FirstTruthyAt([g.footerBg, g.headerBg], 1);
  }

  /** The text colour: footerText when truthy, else the default. */
  lemma TextPrecedence(s: SiteSettings)
    ensures var g := GlobalScope(s);
            && (Truthy(g.footerText) ==> Colors(s).text == g.footerText.value)
            && (!Truthy(g.footerText) ==> Colors(s).text == DefaultFooterText)
  {
    var g := GlobalScope(s);
    assert Truthy(g.footerText) ==> FirstTruthyAt([g.footerText], 0);
  }

  /** The link colour: footerLink, else accentColor, else the default; each tier only when truthy. */
  lemma LinkPrecedence(s: SiteSettings)
    ensures var g := GlobalScope(s);
            && (Truthy(g.footerLink) ==> Colors(s).link == g.footerLink.value)
            && (!Truthy(g.footerLink) && Truthy(g.accentColor) ==> Colors(s).link == g.accentColor.value)
            && (!Truthy(g.footerLink) && !Truthy(g.accentColor) ==> Colors(s).link == DefaultFooterLink)
  {
    var g := GlobalScope(s);
    assert Truthy(g.footerLink) ==> FirstTruthyAt([g.footerLink, g.accentColor], 0);
    assert !Truthy(g.footerLink) && Truthy(g.accentColor) ==> FirstTruthyAt([g.footerLink, g.accentColor], 1);
  }

  /** Without page styles, or without a `global` scope in them, every colour is its default. */
  lemma DefaultsWithoutGlobalScope(s: SiteSettings)
    requires s.pageStyles.None? || "global" !in s.pageStyles.value
    ensures Colors(s) == FooterColors(DefaultFooterBg, DefaultFooterText, DefaultFooterLink)
  {
  }

  /** Scopes other than `global` have no influence on the footer colours. */
  lemma OnlyGlobalScopeMatters(s: SiteSettings, t: SiteSettings)
    requires s.pageStyles.Some? && t.pageStyles.Some?
    requires "global" in s.pageStyles.value <==> "global" in t.pageStyles.value
    requires "global" in s.pageStyles.value ==> s.pageStyles.value["global"] == t.pageStyles.value["global"]
    ensures Colors(s) == Colors(t)
  {
  }

  // ---------------------------------------------------------------------------
  // Social links

  datatype Network = Facebook | Instagram | Twitter | YouTube

  /** Position of a network in the footer's fixed order. */
  function Rank(n: Network): nat {
    match n
    case Facebook => 0
    case Instagram => 1
    case Twitter => 2
    case YouTube => 3
  }

  datatype SocialLink = SocialLink(network: Network, link: string)

  /** The configured link of a network, as read from the settings. */
  function LinkOf(s: SiteSettings, n: Network): Option<string> {
    match n
    case Facebook => s.facebookLink
    case Instagram => s.instagramLink
    case Twitter => s.twitterLink
    case YouTube => s.youtubeLink
  }

  /** The four candidates in their fixed order. */
  function Candidates(s: SiteSettings): (r: seq<(Network, Option<string>)>)
    ensures |r| == 4
    ensures forall k :: 0 <= k < |r| ==> Rank(r[k].0) == k && r[k].1 == LinkOf(s, r[k].0)
  {
    [(Facebook, s.facebookLink), (Instagram, s.instagramLink),
     (Twitter, s.twitterLink), (YouTube, s.youtubeLink)]
  }

  /** Candidates come in strictly increasing rank: the fixed order, each network at most once. */
  predicate CandidatesOrdered(cands: seq<(Network, Option<string>)>) {
    forall i, j :: 0 <= i < j < |cands| ==> Rank(cands[i].0) < Rank(cands[j].0)
  }

  /** Links come in strictly increasing rank: the fixed order, each network at most once. */
  predicate LinksOrdered(links: seq<SocialLink>) {
    forall i, j :: 0 <= i < j < |links| ==> Rank(links[i].network) < Rank(links[j].network)
  }

  lemma HeadRanksFirst(cands: seq<(Network, Option<string>)>, c: (Network, Option<string>))
    requires CandidatesOrdered(cands) && |cands| > 0
    requires c in cands[1..]
    ensures Rank(cands[0].0) < Rank(c.0)
  {
    var j :| 0 <= j < |cands[1..]| && cands[1..][j] == c;
    assert cands[j + 1] == c;
  }

  /** `.filter(social => social.link)`: keep the candidates whose link is truthy, in order. */
  function KeepConfigured(cands: seq<(Network, Option<string>)>): (r: seq<SocialLink>)
    ensures |r| <= |cands|
    ensures forall k :: 0 <= k < |r| ==> r[k].link != ""
    decreases |cands|
  {
    if |cands| == 0 then []
    else if Truthy(cands[0].1) then [SocialLink(cands[0].0, cands[0].1.value)] + KeepConfigured(cands[1..])
    else KeepConfigured(cands[1..])
  }

  /** Every kept link is a configured candidate, unchanged. */
  lemma {:induction false} KeptAreCandidates(cands: seq<(Network, Option<string>)>)
    ensures forall x :: x in KeepConfigured(cands) ==> (x.network, Some(x.link)) in cands
    decreases |cands|
  {
    if |cands| > 0 {
      KeptAreCandidates(cands[1..]);
      assert forall c :: c in cands[1..] ==> c in cands;
    }
  }

  /** Every candidate with a truthy link is kept. */
  lemma {:induction false} ConfiguredAreKept(cands: seq<(Network, Option<string>)>)
    ensures forall c :: c in cands && Truthy(c.1) ==> SocialLink(c.0, c.1.value) in KeepConfigured(cands)
    decreases |cands|
  {
    if |cands| > 0 {
      ConfiguredAreKept(cands[1..]);
      assert forall c :: c in cands ==> c == cands[0] || c in cands[1..];
    }
  }

  /** Filtering keeps the candidates' order. */
  lemma {:induction false} KeptInOrder(cands: seq<(Network, Option<string>)>)
    requires CandidatesOrdered(cands)
    ensures LinksOrdered(KeepConfigured(cands))
    decreases |cands|
  {
    if |cands| > 0 {
      var rest := KeepConfigured(cands[1..]);
      assert CandidatesOrdered(cands[1..]);
      KeptInOrder(cands[1..]);
      if Truthy(cands[0].1) {
        KeptAreCandidates(cands[1..]);
        var r := KeepConfigured(cands);
        assert r == [SocialLink(cands[0].0, cands[0].1.value)] + rest;
        forall k | 0 < k < |r|
          ensures Rank(r[0].network) < Rank(r[k].network)
        {
          assert r[k] == rest[k - 1] && r[k] in rest;
          HeadRanksFirst(cands, (r[k].network, Some(r[k].link)));
        }
      }
    }
  }

  /** The social links the footer shows. */
  function SocialLinks(s: SiteSettings): (r: seq<SocialLink>)
    ensures |r| <= 4
    ensures LinksOrdered(r)
    ensures forall k :: 0 <= k < |r| ==> r[k].link != "" && LinkOf(s, r[k].network) == Some(r[k].link)
    ensures forall n :: Truthy(LinkOf(s, n)) ==> SocialLink(n, LinkOf(s, n).value) in r
  {
    var cands := Candidates(s);
    var r := KeepConfigured(cands);
    KeptAreCandidates(cands);
    ConfiguredAreKept(cands);
    KeptInOrder(cands);
    forall k | 0 <= k < |r|
      ensures LinkOf(s, r[k].network) == Some(r[k].link)
    {
      assert r[k] in r;
    }
    forall n | Truthy(LinkOf(s, n))
      ensures SocialLink(n, LinkOf(s, n).value) in r
    {
      assert cands[Rank(n)] == (n, LinkOf(s, n));
    }
    r
  }

  /** A network is shown exactly when its link is configured, and the section renders iff any is. */
  lemma SocialSectionShown(s: SiteSettings)
    ensures forall n :: (exists k :: 0 <= k < |SocialLinks(s)| && SocialLinks(s)[k].network == n) <==> Truthy(LinkOf(s, n))
    ensures |SocialLinks(s)| > 0 <==> exists n :: Truthy(LinkOf(s, n))
  {
    var r := SocialLinks(s);
    forall n | Truthy(LinkOf(s, n))
      ensures exists k :: 0 <= k < |r| && r[k].network == n
    {
      var k :| 0 <= k < |r| && r[k] == SocialLink(n, LinkOf(s, n).value);
    }
    if |r| > 0 {
      assert Truthy(LinkOf(s, r[0].network));
    }
  }

  // ---------------------------------------------------------------------------
  // The footer as a whole

  datatype FooterView = FooterView(
    logo: string,
    callLink: string,
    shownNumber: string,
    mailLink: string,
    colors: FooterColors,
    socialLinks: seq<SocialLink>,
    showSocial: bool)

  function RenderFooter(s: SiteSettings): (v: FooterView)
    ensures v.logo != ""
    ensures v.colors.background != "" && v.colors.text != "" && v.colors.link != ""
    ensures v.showSocial <==> exists n :: Truthy(LinkOf(s, n))
    ensures |v.socialLinks| <= 4
  {
    SocialSectionShown(s);
    var links := SocialLinks(s);
    FooterView(LogoUrl(s), CallLink(s), ShownNumber(s), MailLink(s), Colors(s), links, |links| > 0)
  }
}
