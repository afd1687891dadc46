/** The brand marketplace: brand pages keyed by id, one subscription per
    creator with a thirty-day expiry, and a reputation gate on the higher
    tiers (core/src/marketplace/brand_marketplace.ts). Page ids and the
    clock are inputs. */
module BrandMarketplace {
  import opened Wrappers
  import opened Seqs
  import opened OrderedMap
  import TokenSafety
  import Reputation
  import opened JsNumbers

  datatype SubscriptionTier = Basic | Premium | Enterprise

  /** The monthly fee of each tier, in XRP. */
  function MonthlyFee(t: SubscriptionTier): nat {
    match t
    case Basic => 50
    case Premium => 250
    case Enterprise => 1000
  }

  /** `getSubscriptionFeatures`: the features each tier advertises. */
  function Features(t: SubscriptionTier): seq<string> {
    match t
    case Basic => ["Basic Brand Page", "List Up to 3 Tokens", "Basic Analytics", "Community Forum Access"]
    case Premium => ["Advanced Brand Page", "List Up to 10 Tokens", "Detailed Analytics", "Priority Support",
                     "Marketing Boost", "Community Verification Badge"]
    case Enterprise => ["Fully Customized Brand Page", "Unlimited Token Listings", "Advanced Analytics Dashboard",
                        "Dedicated Support Manager", "Global Marketing Campaign", "Enterprise Verification Badge",
                        "API Access", "Compliance Consulting"]
  }

  function TierRank(t: SubscriptionTier): nat {
    match t
    case Basic => 0
    case Premium => 1
    case Enterprise => 2
  }

  /** A higher tier costs more and lists more features. */
  lemma HigherTiersCostMore(a: SubscriptionTier, b: SubscriptionTier)
    requires TierRank(a) < TierRank(b)
    ensures MonthlyFee(a) < MonthlyFee(b)
    ensures |Features(a)| < |Features(b)|
  {
  }

  datatype SocialLinks = SocialLinks(twitter: Option<string>, telegram: Option<string>, discord: Option<string>)

  /** A brand page's contents, without the id the marketplace assigns. */
  datatype PageInput = PageInput(
    name: string,
    description: string,
    logoUrl: Option<string>,
    websiteUrl: Option<string>,
    socialLinks: Option<SocialLinks>)

  datatype BrandPage = BrandPage(
    id: string,
    name: string,
    description: string,
    logoUrl: Option<string>,
    websiteUrl: Option<string>,
    socialLinks: Option<SocialLinks>)

  function WithId(id: string, c: PageInput): BrandPage {
    BrandPage(id, c.name, c.description, c.logoUrl, c.websiteUrl, c.socialLinks)
  }

  datatype Subscription = Subscription(tier: SubscriptionTier, expiresAt: int)

  /** Pages by id, subscriptions by creator, and (for the corrected
      page listing) the creator of each page. */
  datatype Marketplace = Marketplace(
    brandPages: seq<Entry<string, BrandPage>>,
    subscriptions: seq<Entry<string, Subscription>>,
    owners: seq<Entry<string, string>>)

  /** Thirty days in milliseconds. */
  const SubscriptionPeriod: int := 30 * 24 * 60 * 60 * 1000

  /** `subscribeToBrandMarketplace`: the creator's subscription becomes the
      given tier until thirty days from now, replacing any earlier one. The
      page id and the fee play no part; no payment is taken. */
  function Subscribe(m: Marketplace, creator: string, brandPageId: string, tier: SubscriptionTier,
                     now: int): (m': Marketplace)
    ensures Get(m'.subscriptions, creator) == Some(Subscription(tier, now + 2592000000))
    ensures forall c :: c != creator ==> Get(m'.subscriptions, c) == Get(m.subscriptions, c)
    ensures m'.brandPages == m.brandPages && m'.owners == m.owners
  {
    m.(subscriptions := Put(m.subscriptions, creator, Subscription(tier, now + SubscriptionPeriod)))
  }

  /** `isSubscriptionActive`: true while the expiry is strictly in the future. */
  function IsSubscriptionActive(m: Marketplace, creator: string, now: int): (active: bool)
    ensures active <==> Get(m.subscriptions, creator).Some? && now < Get(m.subscriptions, creator).value.expiresAt
  {
    match Get(m.subscriptions, creator)
    case None => false
    case Some(s) => s.expiresAt > now
  }

  /** `getSubscriptionTier`. */
  function GetSubscriptionTier(m: Marketplace, creator: string): (t: Option<SubscriptionTier>)
    ensures t.Some? <==> creator in Keys(m.subscriptions)
  {
    match Get(m.subscriptions, creator)
    case None => None
    case Some(s) => Some(s.tier)
  }

  /** A subscription taken at `now` is active for exactly the thirty days
      that follow, and reports the tier taken. */
  lemma SubscriptionLastsThirtyDays(m: Marketplace, creator: string, pageId: string, tier: SubscriptionTier,
                                    now: int, later: int)
    ensures var m' := Subscribe(m, creator, pageId, tier, now);
      && GetSubscriptionTier(m', creator) == Some(tier)
      && (IsSubscriptionActive(m', creator, later) <==> later < now + SubscriptionPeriod)
  {
  }

  /** A renewal replaces the earlier subscription outright, even with a
      lower tier. */
  lemma RenewalReplacesTier(m: Marketplace, creator: string, pageId: string, t1: SubscriptionTier,
                            t2: SubscriptionTier, now1: int, now2: int)
    ensures GetSubscriptionTier(Subscribe(Subscribe(m, creator, pageId, t1, now1), creator, pageId, t2, now2), creator)
         == Some(t2)
  {
  }

  // ---------------------------------------------------------------------------
  // Page creation and its reputation gate

  const InsufficientReputation := "Insufficient creator reputation for selected tier"

  /** The higher tiers need a reputation of at least 50 (premium) or 75 (enterprise). */
  predicate GateRejects(tier: SubscriptionTier, reputation: real) {
    (tier == Premium && reputation < 50.0) || (tier == Enterprise && reputation < 75.0)
  }

  /** `createBrandPage`, judged on the creator's reputation: a rejected tier
      changes nothing; otherwise the page is stored under its new id and the
      creator is subscribed to the tier. */
  function CreateBrandPage(m: Marketplace, creator: string, config: PageInput, tier: SubscriptionTier,
                           reputation: real, pageId: string, now: int): (r: Result<(Marketplace, BrandPage), string>)
    ensures r.Err? <==> GateRejects(tier, reputation)
    ensures r.Err? ==> r.error == InsufficientReputation
    ensures r.Ok? ==>
      var (m', page) := r.value;
      && page == WithId(pageId, config)
      && Get(m'.brandPages, pageId) == Some(page)
      && (forall k :: k != pageId ==> Get(m'.brandPages, k) == Get(m.brandPages, k))
      && Get(m'.owners, pageId) == Some(creator)
      && Get(m'.subscriptions, creator) == Some(Subscription(tier, now + SubscriptionPeriod))
  {
    if GateRejects(tier, reputation) then Err(InsufficientReputation)
    else
      var page := WithId(pageId, config);
      var m1 := m.(brandPages := Put(m.brandPages, pageId, page), owners := Put(m.owners, pageId, creator));
      Ok((Subscribe(m1, creator, pageId, tier, now), page))
  }

  /** Basic pages are always accepted, and the gate is monotone: a creator
      accepted for a tier stays accepted with a higher reputation. */
  lemma GateMonotone(tier: SubscriptionTier, r1: real, r2: real)
    requires r1 <= r2
    ensures !GateRejects(Basic, r1)
    ensures !GateRejects(tier, r1) ==> !GateRejects(tier, r2)
  {
  }

  /** A reputation of exactly 50 opens premium but not enterprise. */
  lemma GateBoundaries()
    ensures !GateRejects(Premium, 50.0) && GateRejects(Enterprise, 50.0) && !GateRejects(Enterprise, 75.0)
  {
  }

  /** The metrics the code scores every creator with: no liquidity locked
      out of a total supply of zero. */
  const PlaceholderMetrics := Reputation.TokenMetrics(
    0.0, 0.0, TokenSafety.SafetyConfig(5.0, 180.0, Some([]), TokenSafety.Safe), [], 0.8)

  /** The score the code computes from the placeholder metrics: zero
      locked out of zero supplied. */
  function PlaceholderReputation(): (n: JsNumber)
    ensures n.NaN?
  {
    Reputation.JsReputationScore(PlaceholderMetrics)
  }

  /** The code as written: the gate is applied to the placeholder score. */
  function CreateBrandPageAsWritten(m: Marketplace, creator: string, config: PageInput, tier: SubscriptionTier,
                                    pageId: string, now: int): (r: Result<(Marketplace, BrandPage), string>)
    ensures r.Ok?
    ensures r.Ok? ==> r.value.1 == WithId(pageId, config) && pageId in Keys(r.value.0.brandPages)
  {
    var rep := PlaceholderReputation();
    if (tier == Premium && Less(rep, 50.0)) || (tier == Enterprise && Less(rep, 75.0)) then
      Err(InsufficientReputation)
    else
      var page := WithId(pageId, config);
      var m1 := m.(brandPages := Put(m.brandPages, pageId, page), owners := Put(m.owners, pageId, creator));
      Ok((Subscribe(m1, creator, pageId, tier, now), page))
  }

  /** As written, the gate never rejects: every creator gets every tier, as
      a creator with reputation 0 would not under the gate as intended. */
  lemma PlaceholderGateNeverRejects(m: Marketplace, creator: string, config: PageInput, tier: SubscriptionTier,
                                    pageId: string, now: int)
    ensures CreateBrandPageAsWritten(m, creator, config, tier, pageId, now).Ok?
    ensures CreateBrandPageAsWritten(m, creator, config, Enterprise, pageId, now).Ok?
         && CreateBrandPage(m, creator, config, Enterprise, 0.0, pageId, now).Err?
  {
  }

  // ---------------------------------------------------------------------------
  // Reading pages

  /** `getBrandPage`. */
  function GetBrandPage(m: Marketplace, brandPageId: string): (p: Option<BrandPage>)
    ensures p.Some? <==> brandPageId in Keys(m.brandPages)
  {
    Get(m.brandPages, brandPageId)
  }

  predicate IsPrefix(p: string, s: string) {
    |p| <= |s| && s[..|p|] == p
  }

  function IdStartsWith(creator: string): BrandPage -> bool {
    (page: BrandPage) => IsPrefix(creator, page.id)
  }

  /** `getCreatorBrandPages` as written: the pages whose id begins with the
      creator's address. */
  function GetCreatorBrandPages(m: Marketplace, creator: string): (ps: seq<BrandPage>)
    ensures forall p :: p in ps <==> p in Values(m.brandPages) && IsPrefix(creator, p.id)
  {
    Filter(Values(m.brandPages), IdStartsWith(creator))
  }

  /** The characters of a version-4 UUID as generated for page ids. */
  predicate UuidShaped(id: string) {
    forall i :: 0 <= i < |id| ==> id[i] in "0123456789abcdef-"
  }

  /** Page ids are UUIDs and XRP Ledger addresses begin with 'r', which no
      UUID contains, so no creator ever finds their pages. */
  lemma UuidPagesNeverListed(m: Marketplace, creator: string)
    requires forall i :: 0 <= i < |m.brandPages| ==> UuidShaped(m.brandPages[i].value.id)
    requires |creator| > 0 && creator[0] == 'r'
    ensures GetCreatorBrandPages(m, creator) == []
  {
    var vs := Values(m.brandPages);
    forall k | 0 <= k < |vs| ensures !IsPrefix(creator, vs[k].id) {
      var id := vs[k].id;
      if |creator| <= |id| {
        assert id[0] in "0123456789abcdef-";
        assert id[..|creator|][0] == id[0];
      }
    }
    FilterNone(vs, IdStartsWith(creator));
  }

  function OwnedBy(m: Marketplace, creator: string): BrandPage -> bool {
    (page: BrandPage) => Get(m.owners, page.id) == Some(creator)
  }

  /** The listing as intended: the pages the creator made. */
  function GetCreatorBrandPagesByOwner(m: Marketplace, creator: string): (ps: seq<BrandPage>)
    ensures forall p :: p in ps <==> p in Values(m.brandPages) && Get(m.owners, p.id) == Some(creator)
  {
    Filter(Values(m.brandPages), OwnedBy(m, creator))
  }

  /** A page made by a creator is among that creator's pages. */
  lemma CreatedPageIsListed(m: Marketplace, creator: string, config: PageInput, tier: SubscriptionTier,
                            reputation: real, pageId: string, now: int)
    requires !GateRejects(tier, reputation)
    ensures var (m', page) := CreateBrandPage(m, creator, config, tier, reputation, pageId, now).value;
      page in GetCreatorBrandPagesByOwner(m', creator)
  {
    var (m', page) := CreateBrandPage(m, creator, config, tier, reputation, pageId, now).value;
    assert Entry(pageId, page) in m'.brandPages;
    var i :| 0 <= i < |m'.brandPages| && m'.brandPages[i] == Entry(pageId, page);
    assert Values(m'.brandPages)[i] == page;
  }
}
