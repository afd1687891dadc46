/** Splitting collected fees between creator, developer and community
    reserve, and paying each share out from the platform wallet
    (core/src/wallet/fee_distribution.ts). The ledger's replies to the
    three payments are inputs. */
module FeeDistribution {
  import opened Wrappers

  datatype DistributionConfig = DistributionConfig(
    platformWallet: string,
    creatorSplitPercentage: real,
    developerSplitPercentage: real,
    communityReserveSplitPercentage: real)

  /** The constructor's default configuration. */
  const DefaultConfig := DistributionConfig("rPlatformAddressHere", 50.0, 30.0, 20.0)

  const UserTrustWallet := "rEumCqY1g3ifhBgZ5JxCLcDNAau9XzmFdz"

  /** The configuration of the exported manager instance. */
  const ManagerConfig := DistributionConfig(UserTrustWallet, 50.0, 30.0, 20.0)

  datatype Distribution = Distribution(creatorShare: real, developerShare: real, communityReserve: real)

  predicate SplitsComplete(c: DistributionConfig) {
    c.creatorSplitPercentage + c.developerSplitPercentage + c.communityReserveSplitPercentage == 100.0
  }

  /** The three shares of `total`, each its percentage of the whole. */
  function Split(c: DistributionConfig, total: real): (d: Distribution)
    ensures d.creatorShare * 100.0 == total * c.creatorSplitPercentage
    ensures d.developerShare * 100.0 == total * c.developerSplitPercentage
    ensures d.communityReserve * 100.0 == total * c.communityReserveSplitPercentage
  {
    Distribution(
      total * (c.creatorSplitPercentage / 100.0),
      total * (c.developerSplitPercentage / 100.0),
      total * (c.communityReserveSplitPercentage / 100.0))
  }

  /** When the percentages add up to 100 the shares add up to the total. */
  lemma SplitConserves(c: DistributionConfig, total: real)
    requires SplitsComplete(c)
    ensures var d := Split(c, total);
      d.creatorShare + d.developerShare + d.communityReserve == total
  {
    var d := Split(c, total);
    assert (d.creatorShare + d.developerShare + d.communityReserve) * 100.0
        == total * (c.creatorSplitPercentage + c.developerSplitPercentage + c.communityReserveSplitPercentage);
  }

  lemma ManagerSplitsThousand()
    ensures Split(ManagerConfig, 1000.0) == Distribution(500.0, 300.0, 200.0)
    ensures SplitsComplete(DefaultConfig) && SplitsComplete(ManagerConfig)
  {
  }

  // ---------------------------------------------------------------------------
  // Drops

  /** `Number.prototype.toFixed(0)` of a value: the sign is taken off first
      (so a negative value that rounds to zero still prints "-0"), then the
      magnitude is rounded to the nearest integer, halves upwards. */
  datatype Fixed = Fixed(negative: bool, magnitude: nat)

  function RoundHalfUp(x: real): (n: nat)
    requires x >= 0.0
    ensures n as real - 0.5 <= x < n as real + 0.5
  {
    (x + 0.5).Floor
  }

  function ToFixed0(x: real): (f: Fixed)
    ensures f.negative <==> x < 0.0
    ensures f.negative ==> -0.5 < f.magnitude as real + x <= 0.5
    ensures !f.negative ==> -0.5 < f.magnitude as real - x <= 0.5
  {
    if x < 0.0 then Fixed(true, RoundHalfUp(-x)) else Fixed(false, RoundHalfUp(x))
  }

  /** The signed integer a `Fixed` denotes. */
  function FixedValue(f: Fixed): int
  {
    if f.negative then -(f.magnitude as int) else f.magnitude
  }

  const DropsPerXrp := 1000000.0

  /** `convertToDrops`: XRP times one million, rendered with `toFixed(0)`. */
  function ConvertToDrops(xrp: real): (s: string)
    ensures |s| > 0
  {
    Render(ToFixed0(xrp * DropsPerXrp))
  }

  /** The drop string is a minus sign exactly for a negative amount,
      followed by digits only, and read back it is the nearest whole number
      of drops. */
  lemma ConvertToDropsReadsBack(xrp: real)
    ensures var s := ConvertToDrops(xrp);
      && (s[0] == '-' <==> xrp < 0.0)
      && (forall i :: (if s[0] == '-' then 1 else 0) <= i < |s| ==> IsDigit(s[i]))
      && -0.5 <= ReadDrops(s) as real - xrp * DropsPerXrp <= 0.5
  {
    var f := ToFixed0(xrp * DropsPerXrp);
    var s := Render(f);
    var digits := NatToDecimal(f.magnitude);
    DecimalRoundTrip(f.magnitude);
    if f.negative {
      assert s == "-" + digits && s[1..] == digits;
      assert ReadDrops(s) == -(f.magnitude as int);
    } else {
      assert s == digits && IsDigit(s[0]);
      assert ReadDrops(s) == f.magnitude;
    }
  }

  /** Reads an optionally signed digit string back as an integer. */
  function ReadDrops(s: string): int {
    if |s| > 0 && s[0] == '-' then -(DecimalToNat(s[1..]) as int) else DecimalToNat(s)
  }

  /** A whole number of drops converts to exactly that number. */
  lemma WholeDropsRoundTrip(drops: nat)
    ensures ConvertToDrops(drops as real / DropsPerXrp) == NatToDecimal(drops)
  {
    assert drops as real / DropsPerXrp * DropsPerXrp == drops as real;
    var n := RoundHalfUp(drops as real);
    assert n == drops;
    assert ToFixed0(drops as real) == Fixed(false, drops);
  }

  /** The drop count is off from the exact value by at most half a drop. */
  lemma ConvertToDropsNearest(xrp: real)
    ensures var f := ToFixed0(xrp * DropsPerXrp);
      -0.5 <= FixedValue(f) as real - xrp * DropsPerXrp <= 0.5
  {
  }

  /** A negative amount that rounds to zero prints as "-0". */
  lemma TinyNegativePrintsMinusZero()
    ensures ConvertToDrops(-0.0000001) == "-0"
  {
    assert ToFixed0(-0.0000001 * DropsPerXrp) == Fixed(true, 0);
  }

  // ---------------------------------------------------------------------------
  // Decimal rendering

  function Digit(d: nat): char
    requires d < 10
  {
    "0123456789"[d]
  }

  function DigitValue(c: char): nat {
    if '0' <= c <= '9' then (c as int - '0' as int) else 0
  }

  predicate IsDigit(c: char) { '0' <= c <= '9' }

  /** The decimal digits of `n`, most significant first, without leading zeros. */
  function NatToDecimal(n: nat): (s: string)
    ensures |s| > 0
    ensures forall i :: 0 <= i < |s| ==> IsDigit(s[i])
    ensures |s| > 1 ==> s[0] != '0'
    decreases n
  {
    if n < 10 then [Digit(n)] else NatToDecimal(n / 10) + [Digit(n % 10)]
  }

  /** Reads a digit string back, most significant first. */
  function DecimalToNat(s: string): nat
    decreases |s|
  {
    if |s| == 0 then 0 else DecimalToNat(s[..|s| - 1]) * 10 + DigitValue(s[|s| - 1])
  }

  lemma {:induction false} DecimalRoundTrip(n: nat)
    ensures DecimalToNat(NatToDecimal(n)) == n
    decreases n
  {
    if n >= 10 {
      var s := NatToDecimal(n);
      assert s[..|s| - 1] == NatToDecimal(n / 10);
      DecimalRoundTrip(n / 10);
    }
  }

  function Render(f: Fixed): (s: string)
    ensures |s| > 0
  {
    (if f.negative then "-" else "") + NatToDecimal(f.magnitude)
  }

  // ---------------------------------------------------------------------------
  // Paying out

  datatype Leg = CreatorLeg | DeveloperLeg | CommunityLeg

  /** The destination variables of the environment; an unset or empty
      variable falls back to a placeholder address. */
  datatype Destinations = Destinations(creator: Option<string>, developer: Option<string>, community: Option<string>)

  function OrDefault(v: Option<string>, fallback: string): (s: string)
    ensures v.Some? && v.value != "" ==> s == v.value
    ensures v.None? || v.value == "" ==> s == fallback
  {
    if v.Some? && v.value != "" then v.value else fallback
  }

  function DestinationWallet(env: Destinations, leg: Leg): string {
    match leg
    case CreatorLeg => OrDefault(env.creator, "rCreatorWalletAddress")
    case DeveloperLeg => OrDefault(env.developer, "rDeveloperWalletAddress")
    case CommunityLeg => OrDefault(env.community, "rCommunityWalletAddress")
  }

  datatype Payment = Payment(account: string, destination: string, amount: string)

  /** The ledger's reply to each payment: a transaction hash, or `None` when
      the submission throws. */
  datatype Replies = Replies(creator: Option<string>, developer: Option<string>, community: Option<string>)

  predicate AllSettled(r: Replies) {
    r.creator.Some? && r.developer.Some? && r.community.Some?
  }

  const DistributionError := "Fee distribution error"

  datatype Payout = Payout(payments: seq<Payment>, result: Result<Distribution, string>)

  /** `distributeFees`: the three payments are all issued together (one
      failing does not stop the others being sent) from the signing wallet's
      address; the call returns the split only when all three succeed and
      otherwise fails with one fixed message. */
  function DistributeFees(c: DistributionConfig, signer: string, env: Destinations,
                          total: real, replies: Replies): (p: Payout)
    ensures |p.payments| == 3
    ensures forall i :: 0 <= i < 3 ==> p.payments[i].account == signer
    ensures p.payments[0].destination == DestinationWallet(env, CreatorLeg)
    ensures p.payments[1].destination == DestinationWallet(env, DeveloperLeg)
    ensures p.payments[2].destination == DestinationWallet(env, CommunityLeg)
    ensures forall i :: 0 <= i < 3 ==> p.payments[i].destination != ""
    ensures p.result.Ok? <==> AllSettled(replies)
    ensures p.result.Ok? ==> p.result.value == Split(c, total)
    ensures p.result.Err? ==> p.result.error == DistributionError
  {
    PayOut(signer, env, Split(c, total), replies)
  }

  /** The payments for given shares, and the outcome the replies decide. */
  function PayOut(signer: string, env: Destinations, d: Distribution, replies: Replies): Payout {
    var payments := [
      Payment(signer, DestinationWallet(env, CreatorLeg), ConvertToDrops(d.creatorShare)),
      Payment(signer, DestinationWallet(env, DeveloperLeg), ConvertToDrops(d.developerShare)),
      Payment(signer, DestinationWallet(env, CommunityLeg), ConvertToDrops(d.communityReserve))];
    Payout(payments, if AllSettled(replies) then Ok(d) else Err(DistributionError))
  }

  /** Each leg is paid to its own environment variable when that is set to
      a non-empty address, and to its placeholder otherwise: an empty
      variable behaves exactly like an unset one. */
  lemma DestinationsFollowEnvironment(c: DistributionConfig, signer: string, total: real, replies: Replies,
                                      creator: string, developer: string, community: string)
    requires creator != "" && developer != "" && community != ""
    ensures var p := DistributeFees(c, signer, Destinations(Some(creator), Some(developer), Some(community)),
                                    total, replies);
      p.payments[0].destination == creator && p.payments[1].destination == developer
      && p.payments[2].destination == community
    ensures var p := DistributeFees(c, signer, Destinations(None, None, None), total, replies);
      p.payments[0].destination == "rCreatorWalletAddress"
      && p.payments[1].destination == "rDeveloperWalletAddress"
      && p.payments[2].destination == "rCommunityWalletAddress"
    ensures DistributeFees(c, signer, Destinations(Some(""), Some(""), Some("")), total, replies)
         == DistributeFees(c, signer, Destinations(None, None, None), total, replies)
  {
  }

  /** The payments depend only on the amount and the addresses, not on how
      the ledger answers, and the failing leg cannot be told from the error. */
  lemma FailureHidesLeg(c: DistributionConfig, signer: string, env: Destinations, total: real,
                        r1: Replies, r2: Replies)
    requires !AllSettled(r1) && !AllSettled(r2)
    ensures DistributeFees(c, signer, env, total, r1) == DistributeFees(c, signer, env, total, r2)
  {
  }

  /** The configured platform wallet takes no part in a payout. */
  lemma PlatformWalletUnused(c: DistributionConfig, w: string, signer: string, env: Destinations,
                             total: real, replies: Replies)
    ensures DistributeFees(c, signer, env, total, replies)
         == DistributeFees(c.(platformWallet := w), signer, env, total, replies)
  {
    var c' := c.(platformWallet := w);
    assert Split(c', total) == Split(c, total);
  }

  /** Rounding each leg separately can pay out more drops than were
      collected: three drops split 50/30/20 are paid as 2 + 1 + 1. */
  lemma RoundedLegsOverpay()
    ensures var d := Split(ManagerConfig, 0.000003);
      && ConvertToDrops(0.000003) == "3"
      && ConvertToDrops(d.creatorShare) == "2"
      && ConvertToDrops(d.developerShare) == "1"
      && ConvertToDrops(d.communityReserve) == "1"
  {
    var d := Split(ManagerConfig, 0.000003);
    assert ToFixed0(0.000003 * DropsPerXrp) == Fixed(false, 3);
    assert ToFixed0(d.creatorShare * DropsPerXrp) == Fixed(false, 2);
    assert ToFixed0(d.developerShare * DropsPerXrp) == Fixed(false, 1);
    assert ToFixed0(d.communityReserve * DropsPerXrp) == Fixed(false, 1);
  }

  // ---------------------------------------------------------------------------
  // Configuration updates

  datatype ConfigPatch = ConfigPatch(
    platformWallet: Option<string>,
    creatorSplitPercentage: Option<real>,
    developerSplitPercentage: Option<real>,
    communityReserveSplitPercentage: Option<real>)

  /** `updateDistributionConfig`: given fields replace the current ones;
      nothing checks that the percentages still add up to 100. */
  function UpdateDistributionConfig(c: DistributionConfig, patch: ConfigPatch): (c': DistributionConfig)
    ensures c'.platformWallet == patch.platformWallet.GetOr(c.platformWallet)
    ensures c'.creatorSplitPercentage == patch.creatorSplitPercentage.GetOr(c.creatorSplitPercentage)
    ensures c'.developerSplitPercentage == patch.developerSplitPercentage.GetOr(c.developerSplitPercentage)
    ensures c'.communityReserveSplitPercentage
         == patch.communityReserveSplitPercentage.GetOr(c.communityReserveSplitPercentage)
  {
    DistributionConfig(
      patch.platformWallet.GetOr(c.platformWallet),
      patch.creatorSplitPercentage.GetOr(c.creatorSplitPercentage),
      patch.developerSplitPercentage.GetOr(c.developerSplitPercentage),
      patch.communityReserveSplitPercentage.GetOr(c.communityReserveSplitPercentage))
  }

  /** A single-field update can leave the splits over 100 percent. */
  lemma UpdateCanBreakSplits()
    ensures !SplitsComplete(UpdateDistributionConfig(DefaultConfig, ConfigPatch(None, Some(60.0), None, None)))
  {
  }

  lemma UpdateIdempotent(c: DistributionConfig, patch: ConfigPatch)
    ensures UpdateDistributionConfig(UpdateDistributionConfig(c, patch), patch) == UpdateDistributionConfig(c, patch)
    ensures UpdateDistributionConfig(c, ConfigPatch(None, None, None, None)) == c
  {
  }
}
