/** Community onboarding: members keyed by wallet address, collaborator
    matching by shared skills and interests, and a contribution score
    (scripts/community_onboarding.py). Member ids and the join time are
    inputs. */
module CommunityOnboarding {
  import opened Wrappers
  import opened Seqs
  import opened OrderedMap

  datatype Member = Member(
    id: string,
    walletAddress: string,
    skills: seq<string>,
    interests: seq<string>,
    contributionScore: real,
    joinedAt: string)

  datatype Community = Community(members: seq<Entry<string, Member>>, leaderWallet: string)

  datatype OnboardingError =
    | MemberExists
      /** Python's `NameError` for a name used without being imported. */
    | NameNotDefined(name: string)

  const LeaderSkills := ["blockchain", "community_building", "strategic_planning"]
  const LeaderInterests := ["crypto_innovation", "dao_governance", "collaborative_projects"]

  /** `add_member`: a wallet may join once; the new member starts with a
      contribution score of zero. */
  function AddMember(c: Community, wallet: string, skills: seq<string>, interests: seq<string>,
                     id: string, now: string): (r: Result<(Community, Member), OnboardingError>)
    ensures r.Err? <==> wallet in Keys(c.members)
    ensures r.Err? ==> r.error == MemberExists
    ensures r.Ok? ==>
      var (c', m) := r.value;
      && m == Member(id, wallet, skills, interests, 0.0, now)
      && c'.members == c.members + [Entry(wallet, m)]
      && c'.leaderWallet == c.leaderWallet
  {
    if Get(c.members, wallet).Some? then Err(MemberExists)
    else
      var m := Member(id, wallet, skills, interests, 0.0, now);
      PutAbsent(c.members, wallet, m);
      Ok((c.(members := Put(c.members, wallet, m)), m))
  }

  /** The engine as constructed: the founding leader is its first member. */
  function NewCommunity(leader: string, id: string, now: string): (c: Community)
    ensures c.leaderWallet == leader
    ensures c.members == [Entry(leader, Member(id, leader, LeaderSkills, LeaderInterests, 0.0, now))]
  {
    var r := AddMember(Community([], leader), leader, LeaderSkills, LeaderInterests, id, now);
    r.value.0
  }

  /** A member joins at most once, and every join adds exactly one member. */
  lemma JoinOnce(c: Community, wallet: string, skills: seq<string>, interests: seq<string>,
                 id1: string, id2: string, t1: string, t2: string)
    requires wallet !in Keys(c.members)
    ensures var r1 := AddMember(c, wallet, skills, interests, id1, t1);
      && r1.Ok?
      && |r1.value.0.members| == |c.members| + 1
      && AddMember(r1.value.0, wallet, skills, interests, id2, t2) == Err(MemberExists)
  {
    var r1 := AddMember(c, wallet, skills, interests, id1, t1);
    assert r1.value.0.members[|c.members|].key == wallet;
  }

  /** Wallets are distinct in every community built by `NewCommunity` and `AddMember`. */
  lemma AddKeepsWalletsDistinct(c: Community, wallet: string, skills: seq<string>, interests: seq<string>,
                                id: string, now: string)
    requires UniqueKeys(c.members)
    ensures var r := AddMember(c, wallet, skills, interests, id, now);
      r.Ok? ==> UniqueKeys(r.value.0.members)
  {
  }

  /** The code as written: `add_member` stamps the join time with
      `datetime.now()`, but `datetime` is never imported. A new wallet gets
      past the duplicate check and then fails on that name. */
  function AddMemberAsWritten(c: Community, wallet: string, skills: seq<string>, interests: seq<string>,
                              id: string): (r: Result<(Community, Member), OnboardingError>)
    ensures r.Err?
    ensures r == Err(MemberExists) <==> wallet in Keys(c.members)
  {
    if Get(c.members, wallet).Some? then Err(MemberExists) else Err(NameNotDefined("datetime"))
  }

  /** As written, no member can ever be added, so even constructing the
      engine, which adds the leader, fails. */
  lemma AddMemberAsWrittenNeverAdds(c: Community, wallet: string, skills: seq<string>, interests: seq<string>,
                                    id: string, now: string, leader: string)
    ensures AddMemberAsWritten(c, wallet, skills, interests, id).Err?
    ensures AddMemberAsWritten(Community([], leader), leader, LeaderSkills, LeaderInterests, id)
         == Err(NameNotDefined("datetime"))
    ensures AddMember(Community([], leader), leader, LeaderSkills, LeaderInterests, id, now).Ok?
  {
  }

  // ---------------------------------------------------------------------------
  // Matching

  predicate SharesAny(xs: seq<string>, ys: seq<string>) {
    exists x :: x in xs && x in ys
  }

  function Matches(projectSkills: seq<string>, projectInterests: seq<string>): Member -> bool {
    (m: Member) => SharesAny(m.skills, projectSkills) || SharesAny(m.interests, projectInterests)
  }

  /** The number of distinct skills the member shares with the project. */
  function SkillOverlap(m: Member, projectSkills: seq<string>): nat {
    |(set s | s in m.skills) * (set s | s in projectSkills)|
  }

  function OverlapKey(projectSkills: seq<string>): Member -> int {
    (m: Member) => SkillOverlap(m, projectSkills)
  }

  /** `match_potential_collaborators`: the members sharing a skill or an
      interest with the project, most shared skills first; members with
      equal overlap keep their joining order. */
  function MatchPotentialCollaborators(c: Community, projectSkills: seq<string>,
                                       projectInterests: seq<string>): (ms: seq<Member>)
    ensures forall m :: m in ms <==>
      m in Values(c.members) && (SharesAny(m.skills, projectSkills) || SharesAny(m.interests, projectInterests))
    ensures multiset(ms) == multiset(Filter(Values(c.members), Matches(projectSkills, projectInterests)))
    ensures SortedDesc(ms, OverlapKey(projectSkills))
    ensures forall v :: Filter(ms, KeyIs(OverlapKey(projectSkills), v))
                     == Filter(Filter(Values(c.members), Matches(projectSkills, projectInterests)),
                               KeyIs(OverlapKey(projectSkills), v))
  {
    var matching := Filter(Values(c.members), Matches(projectSkills, projectInterests));
    var ms := SortDesc(matching, OverlapKey(projectSkills));
    forall v ensures Filter(ms, KeyIs(OverlapKey(projectSkills), v)) == Filter(matching, KeyIs(OverlapKey(projectSkills), v)) {
      SortDescStable(matching, OverlapKey(projectSkills), v);
    }
    assert forall m :: m in ms <==> m in matching by {
      forall m ensures m in ms <==> m in matching {
        assert m in ms <==> m in multiset(ms);
        assert m in matching <==> m in multiset(matching);
      }
    }
    ms
  }

  /** A member sharing a skill has a positive overlap, so members sharing
      skills come before members matched on interests alone. */
  lemma SharedSkillsRankFirst(m: Member, projectSkills: seq<string>)
    ensures SharesAny(m.skills, projectSkills) <==> SkillOverlap(m, projectSkills) > 0
  {
    var a := set s | s in m.skills;
    var b := set s | s in projectSkills;
    if SharesAny(m.skills, projectSkills) {
      var x :| x in m.skills && x in projectSkills;
      assert x in a * b;
    }
    if SkillOverlap(m, projectSkills) > 0 {
      var x :| x in a * b;
      assert x in m.skills && x in projectSkills;
    }
  }

  // ---------------------------------------------------------------------------
  // Scores and export

  /** `calculate_contribution_score`: half a point per skill and three
      tenths per interest, duplicates included; zero for an unknown wallet. */
  function CalculateContributionScore(c: Community, wallet: string): (score: real)
    ensures wallet !in Keys(c.members) ==> score == 0.0
    ensures wallet in Keys(c.members) ==>
      var m := Get(c.members, wallet).value;
      score * 10.0 == 5.0 * |m.skills| as real + 3.0 * |m.interests| as real
  {
    match Get(c.members, wallet)
    case None => 0.0
    case Some(m) => |m.skills| as real * 0.5 + |m.interests| as real * 0.3
  }

  /** The score never goes below zero, and is zero exactly for unknown
      wallets and for members listing nothing. */
  lemma ScoreZeroIff(c: Community, wallet: string)
    ensures CalculateContributionScore(c, wallet) >= 0.0
    ensures CalculateContributionScore(c, wallet) == 0.0 <==>
      wallet !in Keys(c.members) ||
      (|Get(c.members, wallet).value.skills| == 0 && |Get(c.members, wallet).value.interests| == 0)
  {
  }

  /** The founding leader scores 2.4. */
  lemma LeaderScore(leader: string, id: string, now: string)
    ensures CalculateContributionScore(NewCommunity(leader, id, now), leader) == 2.4
  {
    var c := NewCommunity(leader, id, now);
    assert Get(c.members, leader) == Some(c.members[0].value);
  }

  datatype CommunityExport = CommunityExport(totalMembers: nat, leaderWallet: string, members: seq<Member>)

  /** The data `export_community_data` writes out. */
  function ExportCommunityData(c: Community): (x: CommunityExport)
    requires UniqueKeys(c.members)
    ensures x.totalMembers == |Keys(c.members)| && |x.members| == |c.members|
    ensures x.leaderWallet == c.leaderWallet
    ensures forall i :: 0 <= i < |x.members| ==> x.members[i] == c.members[i].value
  {
    UniqueKeysCardinality(c.members);
    CommunityExport(|c.members|, c.leaderWallet, Values(c.members))
  }
}
