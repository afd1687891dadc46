/** Community ratings of creators: a weighted overall rating per entry, an
    append-only history per creator, averaged profiles with a status bucket,
    and warning/suspension counters
    (core/src/marketplace/creator_ratings.ts). */
module CreatorRatings {
  import opened Wrappers
  import opened Seqs

  /** The four star ratings a rater gives (each documented as 1 to 5, not checked). */
  datatype RatingInput = RatingInput(
    tokenPerformance: real,
    transparencyScore: real,
    communityTrust: real,
    safetyCompliance: real)

  /** One recorded rating; `id` and `timestamp` are supplied by the caller. */
  datatype RatingEntry = RatingEntry(
    id: string,
    timestamp: int,
    tokenPerformance: real,
    transparencyScore: real,
    communityTrust: real,
    safetyCompliance: real,
    overallRating: real)

  datatype CreatorRecord = CreatorRecord(ratings: seq<RatingEntry>, warnings: nat, suspensions: nat)

  /** The rating system's state: one record per creator address. */
  type RatingBook = map<string, CreatorRecord>

  datatype RatingStatus = TopRated | HighlyTrusted | Trusted | Standard | Caution | HighRisk

  datatype Averages = Averages(
    tokenPerformance: real,
    transparencyScore: real,
    communityTrust: real,
    safetyCompliance: real,
    overallRating: real)

  datatype RatingProfile = RatingProfile(
    creatorAddress: string,
    averages: Averages,
    warnings: nat,
    suspensions: nat,
    ratingStatus: RatingStatus)

  // ---------------------------------------------------------------------------
  // Overall rating

  function Min2(a: real, b: real): real { if a <= b then a else b }
  function Max2(a: real, b: real): real { if a >= b then a else b }

  /** `calculateOverallRating`: weights 0.3, 0.25, 0.25 and 0.2. They sum to
      one, so the result is a weighted mean of the four stars. */
  function CalculateOverallRating(r: RatingInput): real {
    r.tokenPerformance * 0.3
      + r.transparencyScore * 0.25
      + r.communityTrust * 0.25
      + r.safetyCompliance * 0.2
  }

  /** The overall rating lies between the lowest and the highest star, and
      four equal stars give that star back. */
  lemma OverallRatingIsWeightedMean(r: RatingInput)
    ensures var o := CalculateOverallRating(r);
      && Min2(Min2(r.tokenPerformance, r.transparencyScore), Min2(r.communityTrust, r.safetyCompliance)) <= o
      && o <= Max2(Max2(r.tokenPerformance, r.transparencyScore), Max2(r.communityTrust, r.safetyCompliance))
      && (r.tokenPerformance == r.transparencyScore == r.communityTrust == r.safetyCompliance ==>
            o == r.tokenPerformance)
  {
  }

  function EntryOf(id: string, timestamp: int, r: RatingInput): RatingEntry {
    RatingEntry(id, timestamp, r.tokenPerformance, r.transparencyScore, r.communityTrust,
                r.safetyCompliance, CalculateOverallRating(r))
  }

  function InputOf(e: RatingEntry): RatingInput {
    RatingInput(e.tokenPerformance, e.transparencyScore, e.communityTrust, e.safetyCompliance)
  }

  /** An entry as `rateCreator` records it: its overall rating is derived from its stars. */
  predicate WellFormedEntry(e: RatingEntry) {
    e.overallRating == CalculateOverallRating(InputOf(e))
  }

  // ---------------------------------------------------------------------------
  // Rating

  function PriorRatings(book: RatingBook, creator: string): seq<RatingEntry> {
    if creator in book then book[creator].ratings else []
  }

  /** `rateCreator`: appends one entry; a first rating creates the record with
      no warnings and no suspensions. */
  function RateCreator(book: RatingBook, creator: string, rating: RatingInput,
                       id: string, timestamp: int): (book': RatingBook)
    ensures book'.Keys == book.Keys + {creator}
    ensures book'[creator].ratings == PriorRatings(book, creator) + [EntryOf(id, timestamp, rating)]
    ensures creator in book ==>
      book'[creator].warnings == book[creator].warnings && book'[creator].suspensions == book[creator].suspensions
    ensures creator !in book ==> book'[creator].warnings == 0 && book'[creator].suspensions == 0
    ensures forall c :: c in book && c != creator ==> book'[c] == book[c]
  {
    var existing := if creator in book then book[creator] else CreatorRecord([], 0, 0);
    book[creator := existing.(ratings := existing.ratings + [EntryOf(id, timestamp, rating)])]
  }

  // ---------------------------------------------------------------------------
  // Averages and status

  function TP(e: RatingEntry): real { e.tokenPerformance }
  function TS(e: RatingEntry): real { e.transparencyScore }
  function CT(e: RatingEntry): real { e.communityTrust }
  function SC(e: RatingEntry): real { e.safetyCompliance }
  function OR(e: RatingEntry): real { e.overallRating }

  predicate StarsInRange(e: RatingEntry) {
    && 1.0 <= e.tokenPerformance <= 5.0
    && 1.0 <= e.transparencyScore <= 5.0
    && 1.0 <= e.communityTrust <= 5.0
    && 1.0 <= e.safetyCompliance <= 5.0
  }

  /** `calculateAverageRatings`: the arithmetic mean of each field, or all
      zeros for an empty history. */
  function CalculateAverageRatings(entries: seq<RatingEntry>): (a: Averages)
    ensures |entries| == 0 ==> a == Averages(0.0, 0.0, 0.0, 0.0, 0.0)
    ensures |entries| > 0 ==>
      var n := |entries| as real;
      && a.tokenPerformance * n == SumOf(entries, TP)
      && a.transparencyScore * n == SumOf(entries, TS)
      && a.communityTrust * n == SumOf(entries, CT)
      && a.safetyCompliance * n == SumOf(entries, SC)
      && a.overallRating * n == SumOf(entries, OR)
  {
    if |entries| == 0 then Averages(0.0, 0.0, 0.0, 0.0, 0.0)
    else
      var n := |entries| as real;
      Averages(SumOf(entries, TP) / n, SumOf(entries, TS) / n, SumOf(entries, CT) / n,
               SumOf(entries, SC) / n, SumOf(entries, OR) / n)
  }

  /** Averages of in-range stars stay in range. */
  lemma AveragesInRange(entries: seq<RatingEntry>)
    requires |entries| > 0
    requires forall i :: 0 <= i < |entries| ==> StarsInRange(entries[i])
    ensures var a := CalculateAverageRatings(entries);
      && 1.0 <= a.tokenPerformance <= 5.0
      && 1.0 <= a.transparencyScore <= 5.0
      && 1.0 <= a.communityTrust <= 5.0
      && 1.0 <= a.safetyCompliance <= 5.0
  {
    var n := |entries| as real;
    SumOfBounds(entries, TP, 1.0, 5.0);
    SumOfBounds(entries, TS, 1.0, 5.0);
    SumOfBounds(entries, CT, 1.0, 5.0);
    SumOfBounds(entries, SC, 1.0, 5.0);
    MeanBounds(SumOf(entries, TP), n);
    MeanBounds(SumOf(entries, TS), n);
    MeanBounds(SumOf(entries, CT), n);
    MeanBounds(SumOf(entries, SC), n);
  }

  lemma MeanBounds(sum: real, n: real)
    requires n > 0.0
    requires 1.0 * n <= sum <= 5.0 * n
    ensures 1.0 <= sum / n <= 5.0
  {
    var q := sum / n;
    assert sum == q * n;
    assert (q - 1.0) * n >= 0.0;
    assert (5.0 - q) * n >= 0.0;
  }

  /** The overall sum is the weighted sum of the star sums. */
  lemma {:induction false} SumOfOverall(entries: seq<RatingEntry>)
    requires forall i :: 0 <= i < |entries| ==> WellFormedEntry(entries[i])
    ensures SumOf(entries, OR) ==
      SumOf(entries, TP) * 0.3 + SumOf(entries, TS) * 0.25 + SumOf(entries, CT) * 0.25 + SumOf(entries, SC) * 0.2
    decreases |entries|
  {
    if |entries| > 0 {
      var init := entries[..|entries| - 1];
      assert forall i :: 0 <= i < |init| ==> init[i] == entries[i];
      SumOfOverall(init);
    }
  }

  /** Averaging commutes with the weighting: the mean overall rating is the
      overall rating of the mean stars. */
  lemma AverageOverallIsOverallOfAverages(entries: seq<RatingEntry>)
    requires |entries| > 0
    requires forall i :: 0 <= i < |entries| ==> WellFormedEntry(entries[i])
    ensures var a := CalculateAverageRatings(entries);
      a.overallRating == CalculateOverallRating(
        RatingInput(a.tokenPerformance, a.transparencyScore, a.communityTrust, a.safetyCompliance))
  {
    var a := CalculateAverageRatings(entries);
    var n := |entries| as real;
    SumOfOverall(entries);
    WeightedMeanCommutes(a.tokenPerformance, a.transparencyScore, a.communityTrust, a.safetyCompliance,
                         a.overallRating, n);
  }

  /** The arithmetic core: if each mean times `n` gives its sum, and the
      overall sum is the weighted sum of the others, the overall mean is the
      weighted mean of the others. */
  lemma WeightedMeanCommutes(tp: real, ts: real, ct: real, sc: real, overall: real, n: real)
    requires n > 0.0
    requires overall * n == (tp * n) * 0.3 + (ts * n) * 0.25 + (ct * n) * 0.25 + (sc * n) * 0.2
    ensures overall == tp * 0.3 + ts * 0.25 + ct * 0.25 + sc * 0.2
  {
    var w := tp * 0.3 + ts * 0.25 + ct * 0.25 + sc * 0.2;
    assert w * n == (tp * n) * 0.3 + (ts * n) * 0.25 + (ct * n) * 0.25 + (sc * n) * 0.2;
    MulCancelEq(overall, w, n);
  }

  lemma MulCancelEq(x: real, y: real, n: real)
    requires n != 0.0
    requires x * n == y * n
    ensures x == y
  {
    assert (x - y) * n == 0.0;
  }

  /** `determineRatingStatus`: the first threshold the rating reaches. */
  function DetermineRatingStatus(overall: real): (s: RatingStatus)
    ensures s == TopRated <==> overall >= 4.5
    ensures s == HighlyTrusted <==> 4.0 <= overall < 4.5
    ensures s == Trusted <==> 3.5 <= overall < 4.0
    ensures s == Standard <==> 3.0 <= overall < 3.5
    ensures s == Caution <==> 2.5 <= overall < 3.0
    ensures s == HighRisk <==> overall < 2.5
  {
    if overall >= 4.5 then TopRated
    else if overall >= 4.0 then HighlyTrusted
    else if overall >= 3.5 then Trusted
    else if overall >= 3.0 then Standard
    else if overall >= 2.5 then Caution
    else HighRisk
  }

  function StatusRank(s: RatingStatus): int {
    match s
    case HighRisk => 0
    case Caution => 1
    case Standard => 2
    case Trusted => 3
    case HighlyTrusted => 4
    case TopRated => 5
  }

  /** A higher overall rating never earns a worse status. */
  lemma StatusMonotone(o1: real, o2: real)
    requires o1 <= o2
    ensures StatusRank(DetermineRatingStatus(o1)) <= StatusRank(DetermineRatingStatus(o2))
  {
  }

  /** `getCreatorRating`: `None` exactly for a creator with no record,
      otherwise the averages, the counters and the status of the average. */
  function GetCreatorRating(book: RatingBook, creator: string): (p: Option<RatingProfile>)
    ensures p.None? <==> creator !in book
    ensures p.Some? ==>
      && p.value.creatorAddress == creator
      && p.value.averages == CalculateAverageRatings(book[creator].ratings)
      && p.value.warnings == book[creator].warnings
      && p.value.suspensions == book[creator].suspensions
      && p.value.ratingStatus == DetermineRatingStatus(p.value.averages.overallRating)
  {
    if creator !in book then None
    else
      var record := book[creator];
      var averages := CalculateAverageRatings(record.ratings);
      Some(RatingProfile(creator, averages, record.warnings, record.suspensions,
                         DetermineRatingStatus(averages.overallRating)))
  }

  /** Two ratings, all fives then all ones, average to three across the
      board, which is `standard`. */
  lemma FivesAndOnesAverageToStandard(creator: string)
    ensures var book := RateCreator(RateCreator(map[], creator, RatingInput(5.0, 5.0, 5.0, 5.0), "a", 1),
                                    creator, RatingInput(1.0, 1.0, 1.0, 1.0), "b", 2);
      GetCreatorRating(book, creator) == Some(RatingProfile(creator, Averages(3.0, 3.0, 3.0, 3.0, 3.0), 0, 0, Standard))
  {
    var e1 := EntryOf("a", 1, RatingInput(5.0, 5.0, 5.0, 5.0));
    var e2 := EntryOf("b", 2, RatingInput(1.0, 1.0, 1.0, 1.0));
    var book := RateCreator(RateCreator(map[], creator, RatingInput(5.0, 5.0, 5.0, 5.0), "a", 1),
                            creator, RatingInput(1.0, 1.0, 1.0, 1.0), "b", 2);
    TwoRatingsRecord(creator, e1, e2);
    FivesAndOnesAverages(e1, e2);
    assert book[creator] == CreatorRecord([e1, e2], 0, 0);
  }

  lemma TwoRatingsRecord(creator: string, e1: RatingEntry, e2: RatingEntry)
    requires e1 == EntryOf("a", 1, RatingInput(5.0, 5.0, 5.0, 5.0))
    requires e2 == EntryOf("b", 2, RatingInput(1.0, 1.0, 1.0, 1.0))
    ensures var book := RateCreator(RateCreator(map[], creator, RatingInput(5.0, 5.0, 5.0, 5.0), "a", 1),
                                    creator, RatingInput(1.0, 1.0, 1.0, 1.0), "b", 2);
      && book[creator] == CreatorRecord([e1, e2], 0, 0)
      && InputOf(e1) == RatingInput(5.0, 5.0, 5.0, 5.0) && e1.overallRating == 5.0
      && InputOf(e2) == RatingInput(1.0, 1.0, 1.0, 1.0) && e2.overallRating == 1.0
  {
    assert CalculateOverallRating(RatingInput(5.0, 5.0, 5.0, 5.0)) == 5.0;
    assert CalculateOverallRating(RatingInput(1.0, 1.0, 1.0, 1.0)) == 1.0;
    var b1 := RateCreator(map[], creator, RatingInput(5.0, 5.0, 5.0, 5.0), "a", 1);
    assert b1[creator] == CreatorRecord([e1], 0, 0);
    assert [e1] + [e2] == [e1, e2];
  }

  lemma FivesAndOnesAverages(e1: RatingEntry, e2: RatingEntry)
    requires InputOf(e1) == RatingInput(5.0, 5.0, 5.0, 5.0) && e1.overallRating == 5.0
    requires InputOf(e2) == RatingInput(1.0, 1.0, 1.0, 1.0) && e2.overallRating == 1.0
    ensures CalculateAverageRatings([e1, e2]) == Averages(3.0, 3.0, 3.0, 3.0, 3.0)
  {
    var a := CalculateAverageRatings([e1, e2]);
    assert a.tokenPerformance == 3.0 by { SumOfPair(e1, e2, TP); }
    assert a.transparencyScore == 3.0 by { SumOfPair(e1, e2, TS); }
    assert a.communityTrust == 3.0 by { SumOfPair(e1, e2, CT); }
    assert a.safetyCompliance == 3.0 by { SumOfPair(e1, e2, SC); }
    assert a.overallRating == 3.0 by { SumOfPair(e1, e2, OR); }
  }

  // ---------------------------------------------------------------------------
  // Warnings and suspensions

  /** `suspendCreator`: one more suspension for a known creator. */
  function SuspendCreator(book: RatingBook, creator: string): (book': RatingBook)
    ensures book'.Keys == book.Keys
    ensures creator in book ==> book'[creator] == book[creator].(suspensions := book[creator].suspensions + 1)
    ensures forall c :: c in book && c != creator ==> book'[c] == book[c]
  {
    if creator in book then book[creator := book[creator].(suspensions := book[creator].suspensions + 1)]
    else book
  }

  /** `addWarning`: a no-op for an unknown creator; otherwise one more
      warning, and one more suspension whenever the new count is at least 3,
      so every warning from the third on suspends again. */
  function AddWarning(book: RatingBook, creator: string): (book': RatingBook)
    ensures creator !in book ==> book' == book
    ensures book'.Keys == book.Keys
    ensures creator in book ==>
      && book'[creator].ratings == book[creator].ratings
      && book'[creator].warnings == book[creator].warnings + 1
      && book'[creator].suspensions ==
           book[creator].suspensions + (if book[creator].warnings + 1 >= 3 then 1 else 0)
    ensures forall c :: c in book && c != creator ==> book'[c] == book[c]
  {
    if creator in book then
      var warned := book[creator := book[creator].(warnings := book[creator].warnings + 1)];
      if warned[creator].warnings >= 3 then SuspendCreator(warned, creator) else warned
    else book
  }

  /** Counters only grow: neither operation lowers any creator's warnings or suspensions. */
  predicate CountersGrow(book: RatingBook, book': RatingBook) {
    && book.Keys <= book'.Keys
    && forall c :: c in book ==>
         book'[c].warnings >= book[c].warnings && book'[c].suspensions >= book[c].suspensions
  }

  lemma RatingAndWarningNeverLowerCounters(book: RatingBook, creator: string, rating: RatingInput,
                                           id: string, timestamp: int)
    ensures CountersGrow(book, RateCreator(book, creator, rating, id, timestamp))
    ensures CountersGrow(book, AddWarning(book, creator))
  {
  }

  /** What the counters look like in any reachable state: every warning from
      the third on has added a suspension, and every record has a rating. */
  predicate Reachable(book: RatingBook) {
    forall c :: c in book ==>
      && book[c].suspensions == (if book[c].warnings >= 2 then book[c].warnings - 2 else 0)
      && |book[c].ratings| > 0
  }

  lemma ReachablePreserved(book: RatingBook, creator: string, rating: RatingInput, id: string, timestamp: int)
    requires Reachable(book)
    ensures Reachable(RateCreator(book, creator, rating, id, timestamp))
    ensures Reachable(AddWarning(book, creator))
  {
  }

  /** Three warnings on a fresh record give exactly one suspension; a fourth
      gives a second. */
  lemma ThirdAndFourthWarnings(book: RatingBook, creator: string)
    requires creator in book && book[creator].warnings == 0 && book[creator].suspensions == 0
    ensures var b3 := AddWarning(AddWarning(AddWarning(book, creator), creator), creator);
      && b3[creator].warnings == 3 && b3[creator].suspensions == 1
      && AddWarning(b3, creator)[creator].suspensions == 2
  {
  }

  /** Warning an unknown creator creates no record, so no profile appears. */
  lemma WarningUnknownCreatesNothing(book: RatingBook, creator: string)
    requires creator !in book
    ensures GetCreatorRating(AddWarning(book, creator), creator).None?
  {
  }
}
