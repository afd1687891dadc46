/** The creator launchpad: achievements worth points, levels derived from
    points, a leaderboard and a dashboard
    (core/src/launchpad/creator_launchpad.ts). */
module Launchpad {
  import opened Wrappers
  import opened Seqs
  import opened OrderedMap

  datatype AchievementKey = FirstToken | CommunityBuilder | TransparencyMaster | SafetyInnovator | ViralToken

  datatype Achievement = Achievement(title: string, points: nat, description: string)

  /** The fixed achievement table. */
  function AchievementOf(key: AchievementKey): Achievement {
    match key
    case FirstToken => Achievement("🚀 Token Pioneer", 50, "Created your first token")
    case CommunityBuilder => Achievement("🤝 Community Champion", 100, "Reached 100+ token holders")
    case TransparencyMaster => Achievement("📊 Transparency Leader", 75, "Maintained high transparency score")
    case SafetyInnovator => Achievement("🛡️ Safety Architect", 90, "Implemented advanced safety measures")
    case ViralToken => Achievement("🌐 Viral Visionary", 150, "Token gained significant market traction")
  }

  /** Different achievements have different titles, so the title identifies one. */
  lemma TitlesIdentifyAchievements(a: AchievementKey, b: AchievementKey)
    ensures AchievementOf(a).title == AchievementOf(b).title <==> a == b
  {
  }

  datatype EarnedAchievement = EarnedAchievement(title: string, points: nat, description: string, earnedAt: int)

  datatype CreatorProfile = CreatorProfile(
    address: string,
    totalPoints: nat,
    achievements: seq<EarnedAchievement>,
    level: nat)

  type Profiles = seq<Entry<string, CreatorProfile>>

  /** `calculateLevel`: one level per full hundred points, starting at 1. */
  function CalculateLevel(points: nat): (level: nat)
    ensures level >= 1
    ensures (level - 1) * 100 <= points < level * 100
  {
    points / 100 + 1
  }

  /** The level is determined by the points: it is the only value meeting
      the bounds above. */
  lemma LevelUnique(points: nat, level: nat)
    requires level >= 1 && (level - 1) * 100 <= points < level * 100
    ensures level == CalculateLevel(points)
  {
    var l := CalculateLevel(points);
    assert (l - level) * 100 < 100 && (level - l) * 100 < 100;
  }

  lemma LevelMonotone(p: nat, q: nat)
    requires p <= q
    ensures CalculateLevel(p) <= CalculateLevel(q)
  {
  }

  predicate HasTitle(achievements: seq<EarnedAchievement>, title: string) {
    exists i :: 0 <= i < |achievements| && achievements[i].title == title
  }

  function NewProfile(creator: string): CreatorProfile {
    CreatorProfile(creator, 0, [], 1)
  }

  /** The creator's profile, or a fresh one when there is none yet. */
  function ProfileOrNew(profiles: Profiles, creator: string): CreatorProfile {
    match Get(profiles, creator)
    case Some(p) => p
    case None => NewProfile(creator)
  }

  /** The profile after an award: an achievement whose title the profile
      already holds is not awarded twice. */
  function Award(p: CreatorProfile, key: AchievementKey, now: int): (p': CreatorProfile)
    ensures HasTitle(p.achievements, AchievementOf(key).title) ==> p' == p
    ensures !HasTitle(p.achievements, AchievementOf(key).title) ==>
      var a := AchievementOf(key);
      && p'.achievements == p.achievements + [EarnedAchievement(a.title, a.points, a.description, now)]
      && p'.totalPoints == p.totalPoints + a.points
      && p'.level == CalculateLevel(p'.totalPoints)
      && p'.address == p.address
  {
    var a := AchievementOf(key);
    if HasTitle(p.achievements, a.title) then p
    else
      var points := p.totalPoints + a.points;
      p.(achievements := p.achievements + [EarnedAchievement(a.title, a.points, a.description, now)],
         totalPoints := points, level := CalculateLevel(points))
  }

  /** `trackAchievement`: awards the achievement to the creator (creating
      the profile on first use) and stores the profile. */
  function TrackAchievement(profiles: Profiles, creator: string, key: AchievementKey, now: int): (r: Profiles)
    ensures Get(r, creator) == Some(Award(ProfileOrNew(profiles, creator), key, now))
    ensures forall c :: c != creator ==> Get(r, c) == Get(profiles, c)
    ensures Keys(r) == Keys(profiles) + {creator}
  {
    Put(profiles, creator, Award(ProfileOrNew(profiles, creator), key, now))
  }

  // ---------------------------------------------------------------------------
  // Profile invariant

  function PointsOf(achievements: seq<EarnedAchievement>): nat
    decreases |achievements|
  {
    if |achievements| == 0 then 0
    else PointsOf(achievements[..|achievements| - 1]) + achievements[|achievements| - 1].points
  }

  /** Titles are distinct, the points are the sum of the achievements' points,
      and the level is the one those points give. */
  predicate ProfileValid(p: CreatorProfile) {
    && (forall i, j :: 0 <= i < j < |p.achievements| ==> p.achievements[i].title != p.achievements[j].title)
    && p.totalPoints == PointsOf(p.achievements)
    && p.level == CalculateLevel(p.totalPoints)
  }

  lemma AwardKeepsValid(p: CreatorProfile, key: AchievementKey, now: int)
    requires ProfileValid(p)
    ensures ProfileValid(Award(p, key, now))
    ensures Award(p, key, now).totalPoints >= p.totalPoints
    ensures Award(p, key, now).level >= p.level
  {
    var p' := Award(p, key, now);
    if !HasTitle(p.achievements, AchievementOf(key).title) {
      assert p'.achievements[..|p'.achievements| - 1] == p.achievements;
    }
  }

  lemma NewProfileValid(creator: string)
    ensures ProfileValid(NewProfile(creator))
  {
  }

  /** Awarding the same achievement again changes nothing. */
  lemma AwardIdempotent(p: CreatorProfile, key: AchievementKey, t1: int, t2: int)
    ensures Award(Award(p, key, t1), key, t2) == Award(p, key, t1)
  {
    var p' := Award(p, key, t1);
    if !HasTitle(p.achievements, AchievementOf(key).title) {
      assert p'.achievements[|p.achievements|].title == AchievementOf(key).title;
    }
  }

  /** Tracking the same achievement twice is the same as tracking it once. */
  lemma TrackTwiceIsOnce(profiles: Profiles, creator: string, key: AchievementKey, t1: int, t2: int)
    ensures TrackAchievement(TrackAchievement(profiles, creator, key, t1), creator, key, t2)
         == TrackAchievement(profiles, creator, key, t1)
  {
    var r := TrackAchievement(profiles, creator, key, t1);
    AwardIdempotent(ProfileOrNew(profiles, creator), key, t1, t2);
    assert ProfileOrNew(r, creator) == Award(ProfileOrNew(profiles, creator), key, t1);
    PutUnchanged(r, creator);
  }

  /** Every stored profile stays valid under tracking. */
  predicate AllValid(profiles: Profiles) {
    forall i :: 0 <= i < |profiles| ==> ProfileValid(profiles[i].value)
  }

  lemma TrackKeepsAllValid(profiles: Profiles, creator: string, key: AchievementKey, now: int)
    requires AllValid(profiles)
    ensures AllValid(TrackAchievement(profiles, creator, key, now))
  {
    var p := ProfileOrNew(profiles, creator);
    assert ProfileValid(p) by {
      if Get(profiles, creator).Some? {
        var i :| 0 <= i < |profiles| && profiles[i] == Entry(creator, p);
      }
    }
    AwardKeepsValid(p, key, now);
    var p' := Award(p, key, now);
    if IndexOf(profiles, creator).Some? {
      PutPresent(profiles, creator, p');
    } else {
      PutAbsent(profiles, creator, p');
    }
  }

  /** Five distinct awards on a new profile: 465 points, level 5. */
  lemma AllFiveAchievements(creator: string, t: int)
    ensures var p := Award(Award(Award(Award(Award(NewProfile(creator), FirstToken, t), CommunityBuilder, t),
                                   TransparencyMaster, t), SafetyInnovator, t), ViralToken, t);
      p.totalPoints == 465 && p.level == 5 && |p.achievements| == 5
  {
    var p1 := Award(NewProfile(creator), FirstToken, t);
    var p2 := Award(p1, CommunityBuilder, t);
    assert !HasTitle(p1.achievements, AchievementOf(CommunityBuilder).title);
    var p3 := Award(p2, TransparencyMaster, t);
    assert !HasTitle(p2.achievements, AchievementOf(TransparencyMaster).title) by {
      assert p2.achievements[0].title == AchievementOf(FirstToken).title;
      assert p2.achievements[1].title == AchievementOf(CommunityBuilder).title;
    }
    var p4 := Award(p3, SafetyInnovator, t);
    assert !HasTitle(p3.achievements, AchievementOf(SafetyInnovator).title) by {
      var seen := {AchievementOf(FirstToken).title, AchievementOf(CommunityBuilder).title,
                   AchievementOf(TransparencyMaster).title};
      assert forall i :: 0 <= i < 3 ==> p3.achievements[i].title in seen;
    }
    var p5 := Award(p4, ViralToken, t);
    assert !HasTitle(p4.achievements, AchievementOf(ViralToken).title) by {
      var seen := {AchievementOf(FirstToken).title, AchievementOf(CommunityBuilder).title,
                   AchievementOf(TransparencyMaster).title, AchievementOf(SafetyInnovator).title};
      assert forall i :: 0 <= i < 4 ==> p4.achievements[i].title in seen;
    }
  }

  // ---------------------------------------------------------------------------
  // Recommendations, dashboard, leaderboard

  /** `generatePersonalizedRecommendations`. */
  function Recommendations(p: CreatorProfile): (rs: seq<string>)
    ensures 2 <= |rs| <= 5
    ensures rs[|rs| - 2..] == ["Increase transparency in token details", "Engage with potential token holders"]
    ensures "Complete your first token creation" in rs <==> p.level <= 2
    ensures "Set up a detailed brand page" in rs <==> p.level <= 2
    ensures "Earn your first achievement badges" in rs <==> |p.achievements| < 3
  {
    (if p.level <= 2 then ["Complete your first token creation", "Set up a detailed brand page"] else [])
    + (if |p.achievements| < 3 then ["Earn your first achievement badges"] else [])
    + ["Increase transparency in token details", "Engage with potential token holders"]
  }

  const NewCreatorSteps := ["Create your first token", "Set up brand marketplace page", "Engage with community"]

  datatype ProfileView = ProfileView(address: string, level: nat, totalPoints: nat, achievements: seq<EarnedAchievement>)

  /** A dashboard: the onboarding steps for an unknown creator, or the
      creator's progress with their rating and first brand page. */
  datatype Dashboard<R, B> =
    | NewCreator(nextSteps: seq<string>)
    | Progress(profile: ProfileView, rating: Option<R>, brandPage: Option<B>, recommendations: seq<string>)

  /** `generateCreatorDashboard`, with the creator's rating and brand pages
      supplied by the rating system and the brand marketplace. */
  function GenerateCreatorDashboard<R, B>(profiles: Profiles, creator: string, rating: Option<R>,
                                          brandPages: seq<B>): (d: Dashboard<R, B>)
    ensures d.NewCreator? <==> creator !in Keys(profiles)
    ensures d.NewCreator? ==> d.nextSteps == NewCreatorSteps
    ensures d.Progress? ==>
      var p := Get(profiles, creator).value;
      && d.profile == ProfileView(creator, p.level, p.totalPoints, p.achievements)
      && d.rating == rating
      && (d.brandPage.Some? <==> |brandPages| > 0)
      && (d.brandPage.Some? ==> d.brandPage.value == brandPages[0])
      && d.recommendations == Recommendations(p)
  {
    match Get(profiles, creator)
    case None => NewCreator(NewCreatorSteps)
    case Some(p) =>
      Progress(ProfileView(creator, p.level, p.totalPoints, p.achievements), rating,
               if |brandPages| > 0 then Some(brandPages[0]) else None, Recommendations(p))
  }

  /** As written, the dashboard looks the rating and the brand pages up on
      the classes themselves rather than on instances; neither class has
      such a static member, so the lookup throws before the profile is read. */
  function GenerateCreatorDashboardAsWritten<R, B>(profiles: Profiles, creator: string): (r: Result<Dashboard<R, B>, string>)
    ensures r.Err?
  {
    Err("TypeError: CreatorRatingSystem.getCreatorRating is not a function")
  }

  /** No creator, known or not, ever gets a dashboard from the code as written,
      while the corrected version answers every creator. */
  lemma DashboardAsWrittenAlwaysThrows<R, B>(profiles: Profiles, creator: string, rating: Option<R>, brandPages: seq<B>)
    ensures GenerateCreatorDashboardAsWritten<R, B>(profiles, creator).Err?
    ensures creator !in Keys(profiles) ==>
      GenerateCreatorDashboard(profiles, creator, rating, brandPages) == NewCreator(NewCreatorSteps)
  {
  }

  datatype LeaderboardEntry = LeaderboardEntry(
    address: string,
    level: nat,
    totalPoints: nat,
    topAchievement: Option<EarnedAchievement>)

  /** The limit `getCreatorLeaderboard` uses when called without one. */
  const DefaultLeaderboardLimit := 10

  function PointsKey(p: CreatorProfile): int { p.totalPoints }

  function EntryFor(p: CreatorProfile): LeaderboardEntry {
    LeaderboardEntry(p.address, p.level, p.totalPoints,
                     if |p.achievements| > 0 then Some(p.achievements[|p.achievements| - 1]) else None)
  }

  /** The profiles by points, highest first, cut to `limit`: the leading
      part of the stable sort of all stored profiles, so profiles with equal
      points keep the order they were first stored in. */
  function TopProfiles(profiles: Profiles, limit: int): (top: seq<CreatorProfile>)
    ensures limit >= 0 ==> |top| == Min(limit, |profiles|)
    ensures forall i, j :: 0 <= i < j < |top| ==> top[i].totalPoints >= top[j].totalPoints
    ensures forall i :: 0 <= i < |top| ==> exists k :: 0 <= k < |profiles| && top[i] == profiles[k].value
    ensures |top| <= |profiles| && top == SortDesc(Values(profiles), PointsKey)[..|top|]
    ensures forall v :: Filter(top, KeyIs(PointsKey, v)) <= Filter(Values(profiles), KeyIs(PointsKey, v))
  {
    var vs := Values(profiles);
    var top := TopByKey(vs, PointsKey, limit);
    forall i | 0 <= i < |top| ensures exists k :: 0 <= k < |profiles| && top[i] == profiles[k].value {
      var k :| 0 <= k < |vs| && vs[k] == top[i];
    }
    assert forall i, j :: 0 <= i < j < |top| ==> PointsKey(top[i]) >= PointsKey(top[j]);
    top
  }

  /** `getCreatorLeaderboard`: the leading profiles, each shown with its most
      recently earned achievement as the "top" one. */
  function GetCreatorLeaderboard(profiles: Profiles, limit: int): (board: seq<LeaderboardEntry>)
    ensures limit >= 0 ==> |board| == Min(limit, |profiles|)
    ensures forall i, j :: 0 <= i < j < |board| ==> board[i].totalPoints >= board[j].totalPoints
    ensures forall i :: 0 <= i < |board| ==>
      exists k :: 0 <= k < |profiles| && board[i] == EntryFor(profiles[k].value)
    ensures |board| <= |profiles|
    ensures forall i :: 0 <= i < |board| ==> board[i] == EntryFor(SortDesc(Values(profiles), PointsKey)[i])
  {
    var top := TopProfiles(profiles, limit);
    var sorted := SortDesc(Values(profiles), PointsKey);
    var board := seq(|top|, i requires 0 <= i < |top| => EntryFor(top[i]));
    forall i | 0 <= i < |board|
      ensures board[i] == EntryFor(sorted[i])
      ensures exists k :: 0 <= k < |profiles| && board[i] == EntryFor(profiles[k].value)
    {
      assert top[i] == sorted[i];
      var k :| 0 <= k < |profiles| && top[i] == profiles[k].value;
      assert board[i] == EntryFor(profiles[k].value);
    }
    assert forall i :: 0 <= i < |board| ==> board[i].totalPoints == top[i].totalPoints;
    board
  }

  /** Called without a limit, the board shows every stored creator while
      there are at most ten, and exactly ten beyond that. */
  lemma DefaultBoardCoversFewCreators(profiles: Profiles)
    ensures var board := GetCreatorLeaderboard(profiles, DefaultLeaderboardLimit);
      |board| == Min(10, |profiles|)
      && (|profiles| <= 10 ==>
            forall k :: 0 <= k < |profiles| ==> EntryFor(profiles[k].value) in board)
  {
    var board := GetCreatorLeaderboard(profiles, DefaultLeaderboardLimit);
    var vs := Values(profiles);
    var sorted := SortDesc(vs, PointsKey);
    if |profiles| <= 10 {
      forall k | 0 <= k < |profiles| ensures EntryFor(profiles[k].value) in board {
        assert vs[k] in multiset(sorted);
        var i :| 0 <= i < |sorted| && sorted[i] == vs[k];
        assert board[i] == EntryFor(sorted[i]);
      }
    }
  }

  /** A newly stored creator out-scoring every other creator heads the leaderboard. */
  lemma LeaderHeadsBoard(profiles: Profiles, leader: CreatorProfile, limit: int)
    requires limit >= 1 && leader.address !in Keys(profiles)
    requires forall k :: 0 <= k < |profiles| ==> profiles[k].value.totalPoints < leader.totalPoints
    ensures GetCreatorLeaderboard(Put(profiles, leader.address, leader), limit)[0] == EntryFor(leader)
  {
    var stored := Put(profiles, leader.address, leader);
    PutAbsent(profiles, leader.address, leader);
    LeaderTopsProfiles(profiles, stored, leader, limit);
  }

  lemma LeaderTopsProfiles(profiles: Profiles, stored: Profiles, leader: CreatorProfile, limit: int)
    requires limit >= 1 && stored == profiles + [Entry(leader.address, leader)]
    requires forall k :: 0 <= k < |profiles| ==> profiles[k].value.totalPoints < leader.totalPoints
    ensures |TopProfiles(stored, limit)| > 0 && TopProfiles(stored, limit)[0] == leader
  {
    var vs := Values(profiles);
    assert Values(stored) == vs + [leader];
    TopByKeyNewestFirst(vs, leader, PointsKey, limit);
  }
}
