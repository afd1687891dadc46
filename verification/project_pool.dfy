/** The collaborative project pool: projects keyed by id, each with its
    contributors, funding and a status lifecycle
    (core/src/collaborative/project_pool.ts). */
module ProjectPool {
  import opened Wrappers
  import opened Seqs
  import opened OrderedMap

  datatype Role = Founder | Developer | Designer | Marketer | Advisor
  datatype ProjectType = MemeCoin | NftCollection | Dapp | TokenProject | OtherType
  datatype ProjectStatus = Draft | Funding | InProgress | Launched | Completed

  datatype Contributor = Contributor(
    walletAddress: string,
    contributionAmount: real,
    skills: seq<string>,
    role: Role)

  datatype LaunchDetails = LaunchDetails(
    tokenSymbol: Option<string>,
    initialSupply: Option<real>,
    contractAddress: Option<string>)

  datatype Project = Project(
    id: string,
    name: string,
    description: string,
    projectType: ProjectType,
    contributors: seq<Contributor>,
    totalFunding: real,
    fundingGoal: real,
    status: ProjectStatus,
    createdAt: int,
    launchDetails: Option<LaunchDetails>)

  type Pool = seq<Entry<string, Project>>

  /** `createProject`: a draft project whose only contributor is the
      initial one and whose funding is that contribution. The id and the
      clock are inputs. */
  function CreateProject(pool: Pool, name: string, description: string, projectType: ProjectType,
                         fundingGoal: real, initial: Contributor, id: string, now: int): (res: (string, Pool))
    ensures res.0 == id
    ensures Get(res.1, id) == Some(Project(id, name, description, projectType, [initial],
                                           initial.contributionAmount, fundingGoal, Draft, now, None))
    ensures forall k :: k != id ==> Get(res.1, k) == Get(pool, k)
  {
    var p := Project(id, name, description, projectType, [initial], initial.contributionAmount,
                     fundingGoal, Draft, now, None);
    (id, Put(pool, id, p))
  }

  /** The first contributor paying from `wallet`. */
  function FindWallet(cs: seq<Contributor>, wallet: string): (o: Option<nat>)
    ensures o.Some? ==> o.value < |cs| && cs[o.value].walletAddress == wallet
    ensures o.Some? ==> forall j :: 0 <= j < o.value ==> cs[j].walletAddress != wallet
    ensures o.None? ==> forall j :: 0 <= j < |cs| ==> cs[j].walletAddress != wallet
    decreases |cs|
  {
    if |cs| == 0 then None
    else if cs[0].walletAddress == wallet then Some(0)
    else
      var o := FindWallet(cs[1..], wallet);
      if o.Some? then Some(o.value + 1) else None
  }

  /** A contribution merged into a project's list: a returning wallet has
      its amount raised (its skills and role stay as first given); a new
      wallet is appended. */
  function Merge(cs: seq<Contributor>, c: Contributor): (cs': seq<Contributor>)
    ensures FindWallet(cs, c.walletAddress).None? ==> cs' == cs + [c]
    ensures FindWallet(cs, c.walletAddress).Some? ==>
      var j := FindWallet(cs, c.walletAddress).value;
      cs' == cs[j := cs[j].(contributionAmount := cs[j].contributionAmount + c.contributionAmount)]
  {
    match FindWallet(cs, c.walletAddress)
    case None => cs + [c]
    case Some(j) => cs[j := cs[j].(contributionAmount := cs[j].contributionAmount + c.contributionAmount)]
  }

  /** The project after accepting a contribution. */
  function Funded(p: Project, c: Contributor): (p': Project)
    ensures p'.totalFunding == p.totalFunding + c.contributionAmount
    ensures p'.contributors == Merge(p.contributors, c)
    ensures p'.status == if p'.totalFunding >= p.fundingGoal then InProgress else Funding
    ensures p' == p.(contributors := p'.contributors, totalFunding := p'.totalFunding, status := p'.status)
  {
    var total := p.totalFunding + c.contributionAmount;
    p.(contributors := Merge(p.contributors, c), totalFunding := total,
       status := if total >= p.fundingGoal then InProgress else Funding)
  }

  /** `contributeToProject`: accepted only for a project that is raising
      funds; the funding grows by the amount, and reaching the goal moves
      the project on to in-progress. */
  function ContributeToProject(pool: Pool, projectId: string, c: Contributor): (res: (bool, Pool))
    ensures res.0 <==> Get(pool, projectId).Some? && Get(pool, projectId).value.status == Funding
    ensures !res.0 ==> res.1 == pool
    ensures res.0 ==>
      && Get(res.1, projectId) == Some(Funded(Get(pool, projectId).value, c))
      && forall k :: k != projectId ==> Get(res.1, k) == Get(pool, k)
  {
    match Get(pool, projectId)
    case None => (false, pool)
    case Some(p) =>
      if p.status != Funding then (false, pool)
      else (true, Put(pool, projectId, Funded(p, c)))
  }

  /** `launchProject`: only an in-progress project can launch; it records
      the launch details. */
  function LaunchProject(pool: Pool, projectId: string, details: LaunchDetails): (res: (bool, Pool))
    ensures res.0 <==> Get(pool, projectId).Some? && Get(pool, projectId).value.status == InProgress
    ensures !res.0 ==> res.1 == pool
    ensures res.0 ==>
      && Get(res.1, projectId) == Some(Get(pool, projectId).value.(status := Launched, launchDetails := Some(details)))
      && forall k :: k != projectId ==> Get(res.1, k) == Get(pool, k)
  {
    match Get(pool, projectId)
    case None => (false, pool)
    case Some(p) =>
      if p.status != InProgress then (false, pool)
      else (true, Put(pool, projectId, p.(status := Launched, launchDetails := Some(details))))
  }

  // ---------------------------------------------------------------------------
  // Queries

  function OfType(t: ProjectType): Project -> bool {
    (p: Project) => p.projectType == t
  }

  /** `getProjectsByType`, in creation order. */
  function GetProjectsByType(pool: Pool, t: ProjectType): (ps: seq<Project>)
    ensures forall p :: p in ps <==> p in Values(pool) && p.projectType == t
  {
    Filter(Values(pool), OfType(t))
  }

  /** The contributors of the projects, project by project (`flatMap`). */
  function AllContributors(ps: seq<Project>, t: Option<ProjectType>): (cs: seq<Contributor>)
    ensures forall c :: c in cs <==>
      exists i :: 0 <= i < |ps| && (t.None? || ps[i].projectType == t.value) && c in ps[i].contributors
    decreases |ps|
  {
    if |ps| == 0 then []
    else
      var rest := AllContributors(ps[1..], t);
      assert forall i :: 0 < i < |ps| ==> ps[i] == ps[1..][i - 1];
      (if t.None? || ps[0].projectType == t.value then ps[0].contributors else []) + rest
  }

  predicate SharesSkill(c: Contributor, skills: seq<string>) {
    exists s :: s in c.skills && s in skills
  }

  function WithAnySkill(skills: seq<string>): Contributor -> bool {
    (c: Contributor) => SharesSkill(c, skills)
  }

  /** `findProjectContributors`: contributors, across the projects of the
      given type or of every type, who list at least one wanted skill. A
      wallet in several projects appears once per project. */
  function FindProjectContributors(pool: Pool, skills: seq<string>, t: Option<ProjectType>): (cs: seq<Contributor>)
    ensures forall c :: c in cs <==>
      SharesSkill(c, skills) &&
      exists i :: 0 <= i < |pool| && (t.None? || pool[i].value.projectType == t.value) && c in pool[i].value.contributors
  {
    Filter(AllContributors(Values(pool), t), WithAnySkill(skills))
  }

  function EarningIn(wallet: string): Project -> real {
    (p: Project) =>
      var j := FindWallet(p.contributors, wallet);
      if j.Some? && p.status == Launched then p.contributors[j.value].contributionAmount * 1.5 else 0.0
  }

  /** `calculateCollectiveEarnings`: one and a half times the wallet's
      contribution, summed over the launched projects it contributed to. */
  function CalculateCollectiveEarnings(pool: Pool, wallet: string): (e: real)
    ensures (forall i :: 0 <= i < |pool| ==> pool[i].value.status != Launched) ==> e == 0.0
  {
    var ps := Values(pool);
    assert (forall i :: 0 <= i < |pool| ==> pool[i].value.status != Launched) ==> SumOf(ps, EarningIn(wallet)) == 0.0 by {
      if forall i :: 0 <= i < |pool| ==> pool[i].value.status != Launched {
        assert forall i :: 0 <= i < |ps| ==> EarningIn(wallet)(ps[i]) == 0.0;
        SumOfBounds(ps, EarningIn(wallet), 0.0, 0.0);
      }
    }
    SumOf(ps, EarningIn(wallet))
  }

  // ---------------------------------------------------------------------------
  // Invariants

  /** A project's funding is the sum of its contributors' amounts, and no
      wallet is listed twice. */
  predicate ProjectValid(p: Project) {
    && p.totalFunding == SumOf(p.contributors, AmountOf)
    && forall i, j :: 0 <= i < j < |p.contributors| ==>
         p.contributors[i].walletAddress != p.contributors[j].walletAddress
  }

  function AmountOf(c: Contributor): real { c.contributionAmount }

  predicate PoolValid(pool: Pool) {
    UniqueKeys(pool) && forall i :: 0 <= i < |pool| ==> ProjectValid(pool[i].value)
  }

  /** Merging a contribution keeps the books balanced and the wallets distinct. */
  lemma MergeKeepsProjectValid(p: Project, c: Contributor)
    requires ProjectValid(p)
    ensures ProjectValid(p.(contributors := Merge(p.contributors, c),
                            totalFunding := p.totalFunding + c.contributionAmount))
  {
    var cs := p.contributors;
    match FindWallet(cs, c.walletAddress)
    case None =>
      SumOfAppend(cs, c, AmountOf);
    case Some(j) =>
      var cj := cs[j].(contributionAmount := cs[j].contributionAmount + c.contributionAmount);
      SumOfUpdate(cs, j, cj, AmountOf);
  }

  /** Replacing or adding one project keeps the pool valid when that project is. */
  lemma PutKeepsPoolValid(pool: Pool, id: string, p: Project)
    requires PoolValid(pool) && ProjectValid(p)
    ensures PoolValid(Put(pool, id, p))
  {
    var pool' := Put(pool, id, p);
    if IndexOf(pool, id).Some? {
      var i := IndexOf(pool, id).value;
      PutPresent(pool, id, p);
      forall j | 0 <= j < |pool'| ensures ProjectValid(pool'[j].value) {
        if j != i { assert pool'[j] == pool[j]; }
      }
    } else {
      PutAbsent(pool, id, p);
      forall j | 0 <= j < |pool'| ensures ProjectValid(pool'[j].value) {
        if j < |pool| { assert pool'[j] == pool[j]; }
      }
    }
  }

  lemma CreateKeepsPoolValid(pool: Pool, name: string, description: string, projectType: ProjectType,
                             fundingGoal: real, initial: Contributor, id: string, now: int)
    requires PoolValid(pool)
    ensures PoolValid(CreateProject(pool, name, description, projectType, fundingGoal, initial, id, now).1)
  {
    var p := Project(id, name, description, projectType, [initial], initial.contributionAmount,
                     fundingGoal, Draft, now, None);
    assert SumOf([initial], AmountOf) == initial.contributionAmount by {
      assert [initial][..0] == [];
    }
    PutKeepsPoolValid(pool, id, p);
  }

  lemma GetValid(pool: Pool, k: string)
    requires PoolValid(pool) && Get(pool, k).Some?
    ensures ProjectValid(Get(pool, k).value)
  {
    var i :| 0 <= i < |pool| && pool[i] == Entry(k, Get(pool, k).value);
  }

  lemma ContributeKeepsPoolValid(pool: Pool, projectId: string, c: Contributor)
    requires PoolValid(pool)
    ensures PoolValid(ContributeToProject(pool, projectId, c).1)
  {
    match Get(pool, projectId)
    case None =>
    case Some(p) =>
      if p.status == Funding {
        GetValid(pool, projectId);
        MergeKeepsProjectValid(p, c);
        PutKeepsPoolValid(pool, projectId, Funded(p, c));
      }
  }

  lemma LaunchKeepsPoolValid(pool: Pool, projectId: string, details: LaunchDetails)
    requires PoolValid(pool)
    ensures PoolValid(LaunchProject(pool, projectId, details).1)
  {
    match Get(pool, projectId)
    case None =>
    case Some(p) =>
      if p.status == InProgress {
        GetValid(pool, projectId);
        PutKeepsPoolValid(pool, projectId, p.(status := Launched, launchDetails := Some(details)));
      }
  }

  // ---------------------------------------------------------------------------
  // The lifecycle never leaves draft

  /** No operation moves a project out of draft, so every project stays a
      draft from creation on. */
  predicate AllDraft(pool: Pool) {
    forall i :: 0 <= i < |pool| ==> pool[i].value.status == Draft
  }

  lemma CreateKeepsAllDraft(pool: Pool, name: string, description: string, projectType: ProjectType,
                            fundingGoal: real, initial: Contributor, id: string, now: int)
    requires AllDraft(pool)
    ensures AllDraft(CreateProject(pool, name, description, projectType, fundingGoal, initial, id, now).1)
  {
    var p := Project(id, name, description, projectType, [initial], initial.contributionAmount,
                     fundingGoal, Draft, now, None);
    if IndexOf(pool, id).Some? {
      PutPresent(pool, id, p);
    } else {
      PutAbsent(pool, id, p);
    }
  }

  /** In a pool of drafts, contributing and launching always fail, and no
      wallet has earned anything. */
  lemma DraftsRejectEverything(pool: Pool, projectId: string, c: Contributor, details: LaunchDetails, wallet: string)
    requires AllDraft(pool)
    ensures ContributeToProject(pool, projectId, c) == (false, pool)
    ensures LaunchProject(pool, projectId, details) == (false, pool)
    ensures CalculateCollectiveEarnings(pool, wallet) == 0.0
  {
    if Get(pool, projectId).Some? {
      var i :| 0 <= i < |pool| && pool[i] == Entry(projectId, Get(pool, projectId).value);
    }
  }

  /** With distinct keys, a key's value is the one at its position. */
  lemma GetAtIndex(pool: Pool, k: string)
    requires UniqueKeys(pool) && IndexOf(pool, k).Some?
    ensures Get(pool, k) == Some(pool[IndexOf(pool, k).value].value)
  {
    var i := IndexOf(pool, k).value;
    var v := Get(pool, k).value;
    var i' :| 0 <= i' < |pool| && pool[i'] == Entry(k, v);
    assert i' == i;
  }

  /** Launching credits each contributing wallet with one and a half times
      its stake in that project and changes no one else's earnings. */
  lemma LaunchCreditsContributors(pool: Pool, projectId: string, details: LaunchDetails, wallet: string)
    requires UniqueKeys(pool)
    requires LaunchProject(pool, projectId, details).0
    ensures var p := Get(pool, projectId).value;
            var j := FindWallet(p.contributors, wallet);
      CalculateCollectiveEarnings(LaunchProject(pool, projectId, details).1, wallet) ==
        CalculateCollectiveEarnings(pool, wallet) +
        (if j.Some? then p.contributors[j.value].contributionAmount * 1.5 else 0.0)
  {
    var p := Get(pool, projectId).value;
    var p' := p.(status := Launched, launchDetails := Some(details));
    assert LaunchProject(pool, projectId, details).1 == Put(pool, projectId, p');
    var i := IndexOf(pool, projectId).value;
    GetAtIndex(pool, projectId);
    PutPresent(pool, projectId, p');
    var pool' := pool[i := Entry(projectId, p')];
    assert Values(pool') == Values(pool)[i := p'];
    SumOfUpdate(Values(pool), i, p', EarningIn(wallet));
    assert EarningIn(wallet)(p) == 0.0;
  }
}
